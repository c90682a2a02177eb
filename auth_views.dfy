/** Account creation and e-mail verification: `UserManager.create_user` and
    `create_superuser`, the `User.save` override, `send_verification_email`,
    and the views `signup`, `verify_email` and `resend_verification_email`.
    The `users` table is a map from primary key to row; the specification
    functions give the table and the reply after each request, and the class
    `AccountStore` carries them out step by step. */
module AuthViews {
  import opened Base
  import opened Users

  /** The `users` table and the next primary key the database hands out. */
  datatype Accounts = Accounts(users: map<UserId, User>, next: UserId)

  /** What a lookup filters on: `email=`, `email_verification_token=`, or
      `email=` together with `is_email_verified=False`. */
  datatype Key = ByEmail(email: string) | ByToken(token: Token) | PendingEmail(pending: string)

  predicate Matches(u: User, key: Key) {
    match key
    case ByEmail(e) => u.email == e
    case ByToken(t) => u.token == t
    case PendingEmail(e) => u.email == e && !u.isEmailVerified
  }

  /** The row with the smallest primary key below `n` that matches `key`
      (`.filter(...).first()` orders by primary key). */
  function FindFirst(users: map<UserId, User>, key: Key, n: nat): (r: Option<UserId>)
    ensures r.Some? ==> r.value < n && r.value in users && Matches(users[r.value], key)
    ensures r.Some? ==> forall j: UserId :: j < r.value && j in users ==> !Matches(users[j], key)
    ensures r.None? ==> forall j: UserId :: j < n && j in users ==> !Matches(users[j], key)
  {
    if n == 0 then None
    else match FindFirst(users, key, n - 1)
      case Some(k) => Some(k)
      case None => if n - 1 in users && Matches(users[n - 1], key) then Some(n - 1) else None
  }

  /** Two rows that break one of the unique constraints on `email`,
      `email_verification_token` or a non-null `username`. */
  predicate Collide(a: User, b: User) {
    a.email == b.email || a.token == b.token || (b.username.Some? && a.username == b.username)
  }

  /** The stored invariant: keys below the next key and the unique
      constraints hold. */
  predicate Valid(db: Accounts) {
    && (forall k :: k in db.users ==> k < db.next)
    && (forall j, k :: j in db.users && k in db.users && j != k ==> !Collide(db.users[j], db.users[k]))
  }

  /** Under the invariant, a lookup below the next key sees the whole table. */
  lemma FindFirstComplete(db: Accounts, key: Key)
    requires Valid(db)
    ensures FindFirst(db.users, key, db.next).None? <==> forall k :: k in db.users ==> !Matches(db.users[k], key)
  {
  }

  /** Under the invariant, at most one row has a given e-mail address and at
      most one a given token. */
  lemma LookupsAreUnique(db: Accounts, key: Key, k: UserId)
    requires Valid(db) && (key.ByEmail? || key.ByToken?)
    requires k in db.users && Matches(db.users[k], key)
    ensures FindFirst(db.users, key, db.next) == Some(k)
  {
    var r := FindFirst(db.users, key, db.next);
    if r.Some? && r.value != k {
      assert Collide(db.users[r.value], db.users[k]);
    }
  }

  /** The usernames of the rows other than `id`. */
  function UsernamesExcept(users: map<UserId, User>, id: Option<UserId>): set<string> {
    set k | k in users && Some(k) != id && users[k].username.Some? :: users[k].username.value
  }

  /** `if (self.is_superuser or self.is_staff) and not self.username` */
  predicate NeedsUsername(u: User) {
    (u.isSuperuser || u.isStaff) && (u.username == None || u.username == Some(""))
  }

  /** The row `User.save` writes for `u` stored under `id` (None for a new
      row): a staff or superuser row without a username gets one generated
      from its e-mail address, unused by every other row. */
  function Prepared(users: map<UserId, User>, id: Option<UserId>, u: User): (r: User)
    ensures r == u.(username := r.username)
    ensures !NeedsUsername(u) ==> r == u
    ensures NeedsUsername(u) ==> r.username.Some? && r.username.value !in UsernamesExcept(users, id)
  {
    if NeedsUsername(u) then
      UniqueUsernameIsFree(u.email, UsernamesExcept(users, id));
      u.(username := Some(UniqueUsername(u.email, UsernamesExcept(users, id))))
    else u
  }

  /** Some row other than `id` collides with `row`: the save raises
      `IntegrityError`. */
  predicate Clashes(users: map<UserId, User>, id: Option<UserId>, row: User) {
    exists k :: k in users && Some(k) != id && Collide(users[k], row)
  }

  /** `user.save()`: insert under the next key or overwrite row `id`; None
      when a unique constraint fails, leaving the table as it was. */
  function Save(db: Accounts, id: Option<UserId>, u: User): (r: (Accounts, Option<UserId>))
    requires id.Some? ==> id.value in db.users
    ensures r.1.None? <==> Clashes(db.users, id, Prepared(db.users, id, u))
    ensures r.1.None? ==> r.0 == db
    ensures r.1.Some? ==> r.1.value in r.0.users && r.0.users == db.users[r.1.value := Prepared(db.users, id, u)]
    ensures id.Some? && r.1.Some? ==> r.1 == id && r.0.next == db.next
    ensures id.None? && r.1.Some? ==> r.1 == Some(db.next) && r.0.next == db.next + 1
  {
    var row := Prepared(db.users, id, u);
    if Clashes(db.users, id, row) then (db, None)
    else match id
      case None => (Accounts(db.users[db.next := row], db.next + 1), Some(db.next))
      case Some(k) => (db.(users := db.users[k := row]), Some(k))
  }

  /** A successful save keeps the unique constraints. */
  lemma SaveKeepsValid(db: Accounts, id: Option<UserId>, u: User)
    requires Valid(db) && (id.Some? ==> id.value in db.users)
    ensures Valid(Save(db, id, u).0)
  {
    var row := Prepared(db.users, id, u);
    var r := Save(db, id, u);
    if r.1.Some? {
      var n := r.1.value;
      forall j, k | j in r.0.users && k in r.0.users && j != k
        ensures !Collide(r.0.users[j], r.0.users[k])
      {
        if j == n {
          assert !Collide(db.users[k], row);
        } else if k == n {
          assert !Collide(db.users[j], row);
        }
      }
    }
  }

  /** What `send_verification_email` ends in: the token save failed, the mail
      failed after the save, or the mail went out. */
  datatype SendOutcome = TokenClash | MailFailed | Sent

  /** Some row other than `id` already holds `token`. */
  predicate TokenTaken(users: map<UserId, User>, id: UserId, token: Token) {
    exists k :: k in users && k != id && users[k].token == token
  }

  /** `send_verification_email`: store the new token and `sent_at = now`
      (only those two columns), then mail; the stored fields stay when the
      mail fails. */
  function Send(db: Accounts, id: UserId, token: Token, now: Time, mailOk: bool): (r: (Accounts, SendOutcome))
    requires id in db.users
    ensures r.1 == TokenClash <==> TokenTaken(db.users, id, token)
    ensures r.1 == TokenClash ==> r.0 == db
    ensures r.1 != TokenClash ==>
      && r.1 == (if mailOk then Sent else MailFailed)
      && r.0 == db.(users := db.users[id := db.users[id].(token := token, sentAt := Some(now))])
  {
    if TokenTaken(db.users, id, token) then (db, TokenClash)
    else (db.(users := db.users[id := db.users[id].(token := token, sentAt := Some(now))]), if mailOk then Sent else MailFailed)
  }

  /** Sending keeps the unique constraints, and a link just sent is valid. */
  lemma SendKeepsValid(db: Accounts, id: UserId, token: Token, now: Time, mailOk: bool)
    requires Valid(db) && id in db.users
    ensures Valid(Send(db, id, token, now, mailOk).0)
    ensures Send(db, id, token, now, mailOk).1 != TokenClash ==>
      IsVerificationTokenValid(Send(db, id, token, now, mailOk).0.users[id].sentAt, now)
  {
    var r := Send(db, id, token, now, mailOk);
    if r.1 != TokenClash {
      forall j, k | j in r.0.users && k in r.0.users && j != k
        ensures !Collide(r.0.users[j], r.0.users[k])
      {
        if j == id {
          assert !Collide(db.users[j], db.users[k]);
          assert db.users[k].token != token;
        } else if k == id {
          assert !Collide(db.users[j], db.users[k]);
          assert db.users[j].token != token;
        }
      }
    }
  }

  /** The keyword arguments of `create_user` and `create_superuser`; None is
      an argument not given. */
  datatype Extra = Extra(
    username: Option<string>,
    nickname: Option<string>,
    isStaff: Option<bool>,
    isSuperuser: Option<bool>,
    isEmailVerified: Option<bool>,
    isActive: Option<bool>)

  /** The `ValueError`s of the manager, and the `IntegrityError` of its save. */
  datatype CreateError = MissingEmail | NotStaff | NotSuperuser | Duplicate

  /** The row `create_user` builds: the given fields, `is_email_verified` and
      `is_active` defaulting to False, and a token not yet sent. */
  function NewUserRow(email: string, password: string, extra: Extra, token: Token): User {
    User(email, extra.username, extra.nickname.GetOr(""), password,
         extra.isStaff.GetOr(false), extra.isSuperuser.GetOr(false),
         extra.isActive.GetOr(false), extra.isEmailVerified.GetOr(false), token, None)
  }

  /** `UserManager.create_user` */
  function CreateUserSpec(db: Accounts, email: string, password: string, extra: Extra, token: Token): (r: (Accounts, Result<UserId, CreateError>))
    ensures r.1 == Err(MissingEmail) <==> email == ""
    ensures r.1.Err? ==> r.0 == db && (r.1.error == MissingEmail || r.1.error == Duplicate)
    ensures r.1.Ok? ==> r.1.value == db.next && r.0.next == db.next + 1 && db.next in r.0.users
  {
    if email == "" then (db, Err(MissingEmail))
    else
      var s := Save(db, None, NewUserRow(email, password, extra, token));
      if s.1.None? then (db, Err(Duplicate)) else (s.0, Ok(s.1.value))
  }

  /** `create_user` fails without an e-mail address; otherwise it adds exactly
      one row under the next key, unverified and inactive unless told
      otherwise, or changes nothing on a duplicate. */
  lemma CreateUserOutcome(db: Accounts, email: string, password: string, extra: Extra, token: Token)
    requires Valid(db)
    ensures var r := CreateUserSpec(db, email, password, extra, token);
      && (r.1 == Err(MissingEmail) <==> email == "")
      && (r.1.Err? ==> r.0 == db)
      && Valid(r.0)
      && (r.1.Ok? ==>
            && r.1.value == db.next && db.next !in db.users
            && r.0.users.Keys == db.users.Keys + {db.next}
            && (forall k :: k in db.users ==> r.0.users[k] == db.users[k])
            && var u := r.0.users[db.next];
            && u.email == email && u.password == password && u.sentAt == None
            && u.isEmailVerified == extra.isEmailVerified.GetOr(false)
            && u.isActive == extra.isActive.GetOr(false))
  {
    SaveKeepsValid(db, None, NewUserRow(email, password, extra, token));
  }

  /** `extra_fields['username']` after `create_superuser`'s check: the given
      name when it is set and not empty, else one generated over all rows. */
  function SuperuserName(users: map<UserId, User>, email: string, given: Option<string>): Option<string> {
    if given == None || given == Some("") then Some(UniqueUsername(email, UsernamesExcept(users, None)))
    else given
  }

  /** `UserManager.create_superuser`: the four flags default to True, an
      explicit False for staff or superuser is refused, a username is
      generated when missing, then `create_user`. */
  function CreateSuperuserSpec(db: Accounts, email: string, password: string, extra: Extra, token: Token): (r: (Accounts, Result<UserId, CreateError>))
    ensures r.1 == Err(NotStaff) <==> extra.isStaff == Some(false)
    ensures r.1 == Err(NotSuperuser) <==> extra.isStaff != Some(false) && extra.isSuperuser == Some(false)
    ensures r.1.Err? ==> r.0 == db
    ensures r.1.Ok? ==> r.1.value == db.next && r.0.next == db.next + 1
  {
    if !extra.isStaff.GetOr(true) then (db, Err(NotStaff))
    else if !extra.isSuperuser.GetOr(true) then (db, Err(NotSuperuser))
    else
      CreateUserSpec(db, email, password,
        extra.(username := SuperuserName(db.users, email, extra.username),
               isStaff := Some(true), isSuperuser := Some(true),
               isEmailVerified := Some(extra.isEmailVerified.GetOr(true)),
               isActive := Some(extra.isActive.GetOr(true))), token)
  }

  /** A superuser is created staff, superuser, verified and active unless told
      otherwise, with a username no other row holds; an explicit False for
      staff or superuser is refused before anything else and changes
      nothing. */
  lemma CreateSuperuserOutcome(db: Accounts, email: string, password: string, extra: Extra, token: Token)
    requires Valid(db)
    ensures var r := CreateSuperuserSpec(db, email, password, extra, token);
      && (r.1 == Err(NotStaff) <==> extra.isStaff == Some(false))
      && (r.1 == Err(NotSuperuser) <==> extra.isStaff != Some(false) && extra.isSuperuser == Some(false))
      && (r.1.Err? ==> r.0 == db)
      && Valid(r.0)
      && (r.1.Ok? ==>
            && r.1.value == db.next
            && var u := r.0.users[db.next];
            && u.isStaff && u.isSuperuser && u.email == email
            && u.isEmailVerified == extra.isEmailVerified.GetOr(true)
            && u.isActive == extra.isActive.GetOr(true)
            && u.username.Some? && u.username.value !in UsernamesExcept(db.users, None))
  {
    if extra.isStaff.GetOr(true) && extra.isSuperuser.GetOr(true) {
      var name := SuperuserName(db.users, email, extra.username);
      UniqueUsernameIsFree(email, UsernamesExcept(db.users, None));
      var extra' := extra.(username := name, isStaff := Some(true), isSuperuser := Some(true),
                           isEmailVerified := Some(extra.isEmailVerified.GetOr(true)),
                           isActive := Some(extra.isActive.GetOr(true)));
      CreateUserOutcome(db, email, password, extra', token);
      var r := CreateUserSpec(db, email, password, extra', token);
      if r.1.Ok? {
        var row := NewUserRow(email, password, extra', token);
        assert r.0.users[db.next] == Prepared(db.users, None, row);
        if name != None && name != Some("") && name != SuperuserName(db.users, email, None) {
          // a given name is stored unless it clashes, and a clash is refused
          assert !Clashes(db.users, None, row);
          forall k | k in db.users && db.users[k].username.Some?
            ensures db.users[k].username.value != name.value
          {
            assert !Collide(db.users[k], row);
          }
        }
      }
    }
  }

  /** The cleaned fields of the registration form. */
  datatype SignupForm = SignupForm(email: string, password: string, nickname: string)

  /** The outcomes of `signup`: the form again, the success redirect (the
      same message on every success path), or the error after a failed mail. */
  datatype SignupReply = ShowSignupForm | SignupDone | SignupFailed

  /** `signup`. `form` is None for a GET or an invalid form; `first` is the
      token set by the view, `second` the one `send_verification_email` sets. */
  function SignupSpec(db: Accounts, form: Option<SignupForm>, first: Token, second: Token, now: Time, mailOk: bool)
    : (r: (Accounts, SignupReply))
    ensures r.1 == ShowSignupForm <==> form.None?
    ensures form.None? ==> r.0 == db
  {
    if form.None? then (db, ShowSignupForm)
    else match FindFirst(db.users, ByEmail(form.value.email), db.next)
      case Some(k) => SignupExisting(db, k, form.value, first, second, now, mailOk)
      case None => SignupNew(db, form.value, first, second, now, mailOk)
  }

  /** `signup` for an address row `k` already has: nothing for a verified
      row; otherwise store the new password, nickname and token, then send,
      reporting success whatever fails. */
  function SignupExisting(db: Accounts, k: UserId, f: SignupForm, first: Token, second: Token, now: Time, mailOk: bool)
    : (r: (Accounts, SignupReply))
    requires k in db.users
  {
    var u := db.users[k];
    if u.isEmailVerified then (db, SignupDone)
    else
      var s := Save(db, Some(k), u.(password := f.password, nickname := f.nickname, token := first));
      if s.1.None? then (db, SignupDone)
      else (Send(s.0, k, second, now, mailOk).0, SignupDone)
  }

  /** `signup` for a new address: insert an inactive, unverified row, then
      send; when the send fails the row is deleted again. A failed insert is
      the `IntegrityError` path, reported as success. */
  function SignupNew(db: Accounts, f: SignupForm, first: Token, second: Token, now: Time, mailOk: bool)
    : (r: (Accounts, SignupReply))
  {
    var s := Save(db, None, User(f.email, None, f.nickname, f.password, false, false, false, false, first, None));
    if s.1.None? then (db, SignupDone)
    else
      var t := Send(s.0, s.1.value, second, now, mailOk);
      if t.1 == Sent then (t.0, SignupDone)
      else (t.0.(users := t.0.users - {s.1.value}), SignupFailed)
  }

  /** An existing row's signup keeps the constraints and reports success. */
  lemma SignupExistingReplies(db: Accounts, k: UserId, f: SignupForm, first: Token, second: Token, now: Time, mailOk: bool)
    requires Valid(db) && k in db.users
    ensures var r := SignupExisting(db, k, f, first, second, now, mailOk);
      Valid(r.0) && r.1 == SignupDone
  {
    var u := db.users[k].(password := f.password, nickname := f.nickname, token := first);
    var s := Save(db, Some(k), u);
    SaveKeepsValid(db, Some(k), u);
    if s.1.Some? {
      SendKeepsValid(s.0, k, second, now, mailOk);
    }
  }

  /** A new address's signup keeps the constraints and never shows the form
      again. */
  lemma SignupNewKeepsValid(db: Accounts, f: SignupForm, first: Token, second: Token, now: Time, mailOk: bool)
    requires Valid(db)
    ensures var r := SignupNew(db, f, first, second, now, mailOk);
      Valid(r.0) && r.1 != ShowSignupForm
  {
    var row := User(f.email, None, f.nickname, f.password, false, false, false, false, first, None);
    SaveKeepsValid(db, None, row);
    var s := Save(db, None, row);
    if s.1.Some? {
      SendKeepsValid(s.0, s.1.value, second, now, mailOk);
    }
  }

  /** A new address's signup fails only when the mail failed or the second
      token was taken, and then leaves the table's rows as they were. */
  lemma SignupNewFailure(db: Accounts, f: SignupForm, first: Token, second: Token, now: Time, mailOk: bool)
    requires Valid(db)
    requires SignupNew(db, f, first, second, now, mailOk).1 == SignupFailed
    ensures SignupNew(db, f, first, second, now, mailOk).0.users == db.users
    ensures !mailOk || exists k :: k in db.users && db.users[k].token == second
  {
    var row := User(f.email, None, f.nickname, f.password, false, false, false, false, first, None);
    var s := Save(db, None, row);
    var id := db.next;
    assert s.1 == Some(id) && s.0.users == db.users[id := row];
    assert id !in db.users;
    var t := Send(s.0, id, second, now, mailOk);
    assert t.0.users == db.users[id := t.0.users[id]];
    RemoveInserted(db.users, id, t.0.users[id]);
    if t.1 == TokenClash {
      var j :| j in s.0.users && j != id && s.0.users[j].token == second;
      assert j in db.users;
    }
  }

  /** `signup` keeps the unique constraints. A submitted form always ends in
      the success reply, except when a brand-new row's mail could not go
      out: then that row is gone again, no row has the address, and the
      mail failed or the token was taken. */
  lemma SignupReplies(db: Accounts, form: Option<SignupForm>, first: Token, second: Token, now: Time, mailOk: bool)
    requires Valid(db)
    ensures var r := SignupSpec(db, form, first, second, now, mailOk);
      && Valid(r.0)
      && (r.1 == ShowSignupForm <==> form.None?)
      && (r.1 == SignupFailed ==>
            && r.0.users == db.users
            && (forall k :: k in r.0.users ==> r.0.users[k].email != form.value.email)
            && (!mailOk || exists k :: k in db.users && db.users[k].token == second))
  {
    if form.Some? {
      var f := form.value;
      match FindFirst(db.users, ByEmail(f.email), db.next)
      case Some(k) =>
        SignupExistingReplies(db, k, f, first, second, now, mailOk);
      case None =>
        FindFirstComplete(db, ByEmail(f.email));
        SignupNewKeepsValid(db, f, first, second, now, mailOk);
        if SignupNew(db, f, first, second, now, mailOk).1 == SignupFailed {
          SignupNewFailure(db, f, first, second, now, mailOk);
        }
    }
  }

  /** Signing up again with an address already verified changes nothing. */
  lemma SignupVerifiedUnchanged(db: Accounts, f: SignupForm, k: UserId, first: Token, second: Token, now: Time, mailOk: bool)
    requires Valid(db) && k in db.users && db.users[k].email == f.email && db.users[k].isEmailVerified
    ensures SignupSpec(db, Some(f), first, second, now, mailOk) == (db, SignupDone)
  {
    LookupsAreUnique(db, ByEmail(f.email), k);
  }

  /** Signing up again with an address not yet verified stores the new
      password and nickname on that row, and a failed mail does not undo
      them: the row holds the second token and `sent_at = now` whenever that
      token is free, the first otherwise. Every other row is untouched. */
  lemma SignupUpdatesPending(db: Accounts, f: SignupForm, k: UserId, first: Token, second: Token, now: Time, mailOk: bool)
    requires Valid(db) && k in db.users && db.users[k].email == f.email && !db.users[k].isEmailVerified
    requires !TokenTaken(db.users, k, first)
    requires !db.users[k].isStaff && !db.users[k].isSuperuser
    ensures var r := SignupSpec(db, Some(f), first, second, now, mailOk);
      && r.1 == SignupDone
      && r.0.users.Keys == db.users.Keys
      && (forall j :: j in db.users && j != k ==> r.0.users[j] == db.users[j])
      && var u := r.0.users[k];
      && u.password == f.password && u.nickname == f.nickname && u.email == f.email
      && !u.isEmailVerified && u.isActive == db.users[k].isActive
      && (if TokenTaken(db.users, k, second) then u.token == first && u.sentAt == db.users[k].sentAt
          else u.token == second && u.sentAt == Some(now))
  {
    LookupsAreUnique(db, ByEmail(f.email), k);
    var u := db.users[k].(password := f.password, nickname := f.nickname, token := first);
    OverwriteWithoutClash(db, k, u);
    TokenTakenAfterOverwrite(db.users, k, u, second);
  }

  /** Overwriting row `k` with a row that keeps its address and username and
      takes a free token raises no `IntegrityError`. */
  lemma OverwriteWithoutClash(db: Accounts, k: UserId, u: User)
    requires Valid(db) && k in db.users
    requires u.email == db.users[k].email && u.username == db.users[k].username && !NeedsUsername(u)
    requires !TokenTaken(db.users, k, u.token)
    ensures Save(db, Some(k), u) == (db.(users := db.users[k := u]), Some(k))
  {
    forall j | j in db.users && Some(j) != Some(k)
      ensures !Collide(db.users[j], u)
    {
      assert !Collide(db.users[j], db.users[k]);
    }
  }

  /** Whether another row holds a token does not depend on row `k`. */
  lemma TokenTakenAfterOverwrite(users: map<UserId, User>, k: UserId, u: User, token: Token)
    ensures TokenTaken(users[k := u], k, token) == TokenTaken(users, k, token)
  {
    if TokenTaken(users, k, token) {
      var j :| j in users && j != k && users[j].token == token;
      assert users[k := u][j] == users[j];
    }
  }

  /** A new address with free tokens and a mail that goes out adds exactly one
      row: unverified, inactive, with no username, holding the second token
      and `sent_at = now`. */
  lemma SignupCreatesInactive(db: Accounts, f: SignupForm, first: Token, second: Token, now: Time)
    requires Valid(db)
    requires forall k :: k in db.users ==> db.users[k].email != f.email && db.users[k].token != first
                                           && db.users[k].token != second
    ensures SignupSpec(db, Some(f), first, second, now, true)
         == (Accounts(db.users[db.next := User(f.email, None, f.nickname, f.password, false, false, false, false, second, Some(now))],
                      db.next + 1),
             SignupDone)
  {
    FindFirstComplete(db, ByEmail(f.email));
    var row := User(f.email, None, f.nickname, f.password, false, false, false, false, first, None);
    assert FindFirst(db.users, ByEmail(f.email), db.next).None?;
    assert Prepared(db.users, None, row) == row;
    assert !Clashes(db.users, None, row);
    var s := Save(db, None, row);
    assert s == (Accounts(db.users[db.next := row], db.next + 1), Some(db.next));
    assert !TokenTaken(s.0.users, db.next, second);
    assert s.0.users[db.next := row.(token := second, sentAt := Some(now))]
        == db.users[db.next := row.(token := second, sentAt := Some(now))];
  }

  /** The outcomes of `verify_email`. `TokenNotFound` is the 404 that
      `get_object_or_404` raises for a token no row holds; the view's own
      `except User.DoesNotExist` branch is never reached. */
  datatype VerifyReply = TokenNotFound | LinkExpired | AlreadyVerified | Verified

  /** `verify_email`: unknown token, then expiry, then already verified, else
      both flags set (only those two columns). */
  function VerifyEmailSpec(db: Accounts, token: Token, now: Time): (r: (Accounts, VerifyReply))
    ensures r.1 != Verified ==> r.0 == db
    ensures r.1 == TokenNotFound <==> forall k :: k in db.users && k < db.next ==> db.users[k].token != token
    ensures r.1 == Verified ==> r.0.next == db.next && r.0.users.Keys == db.users.Keys
  {
    match FindFirst(db.users, ByToken(token), db.next)
    case None => (db, TokenNotFound)
    case Some(k) =>
      if !IsVerificationTokenValid(db.users[k].sentAt, now) then (db, LinkExpired)
      else if db.users[k].isEmailVerified then (db, AlreadyVerified)
      else (db.(users := db.users[k := db.users[k].(isEmailVerified := true, isActive := true)]), Verified)
  }

  /** Only `Verified` changes the table; it happens exactly for the row
      holding the token when the link is in time and the row is unverified,
      and then sets its two flags and nothing else. An expired link is
      reported as expired even for a verified row. */
  lemma VerifyEmailOutcome(db: Accounts, token: Token, now: Time, k: UserId)
    requires Valid(db) && k in db.users && db.users[k].token == token
    ensures var r := VerifyEmailSpec(db, token, now);
      && (r.1 != Verified ==> r.0 == db)
      && (r.1 == LinkExpired <==> !IsVerificationTokenValid(db.users[k].sentAt, now))
      && (r.1 == AlreadyVerified <==> IsVerificationTokenValid(db.users[k].sentAt, now) && db.users[k].isEmailVerified)
      && (r.1 == Verified <==> IsVerificationTokenValid(db.users[k].sentAt, now) && !db.users[k].isEmailVerified)
      && (r.1 == Verified ==> r.0 == db.(users := db.users[k := db.users[k].(isEmailVerified := true, isActive := true)]))
      && Valid(r.0)
  {
    LookupsAreUnique(db, ByToken(token), k);
    var r := VerifyEmailSpec(db, token, now);
    if r.1 == Verified {
      forall i, j | i in r.0.users && j in r.0.users && i != j
        ensures !Collide(r.0.users[i], r.0.users[j])
      {
        assert !Collide(db.users[i], db.users[j]);
      }
    }
  }

  /** A token no row holds is a 404 and changes nothing. */
  lemma VerifyUnknownToken(db: Accounts, token: Token, now: Time)
    requires Valid(db) && forall k :: k in db.users ==> db.users[k].token != token
    ensures VerifyEmailSpec(db, token, now) == (db, TokenNotFound)
  {
    FindFirstComplete(db, ByToken(token));
  }

  /** Following a link twice: the second visit finds the row verified and
      changes nothing. */
  lemma VerifyEmailTwice(db: Accounts, token: Token, now: Time)
    requires Valid(db)
    requires VerifyEmailSpec(db, token, now).1 == Verified
    ensures var db' := VerifyEmailSpec(db, token, now).0;
            VerifyEmailSpec(db', token, now) == (db', AlreadyVerified)
  {
    var k := FindFirst(db.users, ByToken(token), db.next).value;
    VerifyEmailOutcome(db, token, now, k);
    var db' := VerifyEmailSpec(db, token, now).0;
    LookupsAreUnique(db', ByToken(token), k);
  }

  /** The outcomes of `resend_verification_email`; `ResendCrashed` is the
      exception the view lets through when the token save or the mail
      fails. */
  datatype ResendReply = ResendForm | NoPendingUser | Resent | ResendCrashed

  /** `resend_verification_email` */
  function ResendSpec(db: Accounts, isPost: bool, email: string, token: Token, now: Time, mailOk: bool)
    : (r: (Accounts, ResendReply))
    ensures r.1 == ResendForm <==> !isPost
    ensures r.1 == ResendForm || r.1 == NoPendingUser ==> r.0 == db
    ensures r.0.users.Keys == db.users.Keys && r.0.next == db.next
  {
    if !isPost then (db, ResendForm)
    else match FindFirst(db.users, PendingEmail(email), db.next)
      case None => (db, NoPendingUser)
      case Some(k) =>
        var s := Send(db, k, token, now, mailOk);
        (s.0, if s.1 == Sent then Resent else ResendCrashed)
  }

  /** Resending touches at most the unverified row with the address: verified
      rows never change, `NoPendingUser` is reported exactly when there is
      no such row, and `Resent` leaves it with the new token and
      `sent_at = now`. */
  lemma ResendTargetsPending(db: Accounts, email: string, token: Token, now: Time, mailOk: bool)
    requires Valid(db)
    ensures var r := ResendSpec(db, true, email, token, now, mailOk);
      && Valid(r.0)
      && r.0.users.Keys == db.users.Keys && r.0.next == db.next
      && (forall k :: k in db.users && (db.users[k].isEmailVerified || db.users[k].email != email) ==> r.0.users[k] == db.users[k])
      && (r.1 == NoPendingUser <==> forall k :: k in db.users ==> !Matches(db.users[k], PendingEmail(email)))
      && (r.1 == Resent ==> mailOk && exists k :: k in db.users && r.0.users[k] == db.users[k].(token := token, sentAt := Some(now)))
  {
    FindFirstComplete(db, PendingEmail(email));
    match FindFirst(db.users, PendingEmail(email), db.next)
    case None =>
    case Some(k) =>
      SendKeepsValid(db, k, token, now, mailOk);
  }

  /** The `users` table, with the views and manager methods that change it. */
  class AccountStore {
    var users: map<UserId, User>
    var nextUserId: UserId

    function State(): Accounts
      reads this
    {
      Accounts(users, nextUserId)
    }

    /** An empty table. */
    constructor ()
      ensures State() == Accounts(map[], 0) && Valid(State())
    {
      users := map[];
      nextUserId := 0;
    }

    /** `User.save` */
    method SaveUser(id: Option<UserId>, u: User) returns (saved: Option<UserId>)
      requires id.Some? ==> id.value in users
      modifies this
      ensures (State(), saved) == Save(old(State()), id, u)
    {
      var row := u;
      if NeedsUsername(u) {
        var name := GenerateUniqueUsername(u.email, UsernamesExcept(users, id));
        row := u.(username := Some(name));
      }
      if Clashes(users, id, row) {
        return None;
      }
      match id
      case None =>
        users := users[nextUserId := row];
        saved := Some(nextUserId);
        nextUserId := nextUserId + 1;
      case Some(k) =>
        users := users[k := row];
        saved := Some(k);
    }

    /** `user.delete()` */
    method DeleteUser(id: UserId)
      modifies this
      ensures State() == old(State()).(users := old(users) - {id})
    {
      users := users - {id};
    }

    /** `send_verification_email` */
    method SendVerificationEmail(id: UserId, token: Token, now: Time, mailOk: bool) returns (outcome: SendOutcome)
      requires id in users
      modifies this
      ensures (State(), outcome) == Send(old(State()), id, token, now, mailOk)
    {
      if TokenTaken(users, id, token) {
        return TokenClash;
      }
      users := users[id := users[id].(token := token, sentAt := Some(now))];
      outcome := if mailOk then Sent else MailFailed;
    }

    /** `UserManager.create_user` */
    method CreateUser(email: string, password: string, extra: Extra, token: Token) returns (r: Result<UserId, CreateError>)
      modifies this
      ensures (State(), r) == CreateUserSpec(old(State()), email, password, extra, token)
    {
      if email == "" {
        return Err(MissingEmail);
      }
      var saved := SaveUser(None, NewUserRow(email, password, extra, token));
      if saved.None? {
        return Err(Duplicate);
      }
      r := Ok(saved.value);
    }

    /** `UserManager.create_superuser` */
    method CreateSuperuser(email: string, password: string, extra: Extra, token: Token) returns (r: Result<UserId, CreateError>)
      modifies this
      ensures (State(), r) == CreateSuperuserSpec(old(State()), email, password, extra, token)
    {
      var fields := extra.(isStaff := Some(extra.isStaff.GetOr(true)),
                           isSuperuser := Some(extra.isSuperuser.GetOr(true)),
                           isEmailVerified := Some(extra.isEmailVerified.GetOr(true)),
                           isActive := Some(extra.isActive.GetOr(true)));
      if fields.isStaff != Some(true) {
        return Err(NotStaff);
      }
      if fields.isSuperuser != Some(true) {
        return Err(NotSuperuser);
      }
      if fields.username == None || fields.username == Some("") {
        var name := GenerateUniqueUsername(email, UsernamesExcept(users, None));
        fields := fields.(username := Some(name));
      }
      r := CreateUser(email, password, fields, token);
    }

    /** `signup` */
    method Signup(form: Option<SignupForm>, first: Token, second: Token, now: Time, mailOk: bool) returns (reply: SignupReply)
      modifies this
      ensures (State(), reply) == SignupSpec(old(State()), form, first, second, now, mailOk)
    {
      if form.None? {
        return ShowSignupForm;
      }
      var f := form.value;
      var existing := FindFirst(users, ByEmail(f.email), nextUserId);
      match existing
      case Some(k) =>
        if users[k].isEmailVerified {
          return SignupDone;
        }
        var saved := SaveUser(Some(k), users[k].(password := f.password, nickname := f.nickname, token := first));
        if saved.Some? {
          var _ := SendVerificationEmail(k, second, now, mailOk);
        }
        reply := SignupDone;
      case None =>
        var saved := SaveUser(None, User(f.email, None, f.nickname, f.password, false, false, false, false, first, None));
        if saved.None? {
          return SignupDone;
        }
        var outcome := SendVerificationEmail(saved.value, second, now, mailOk);
        if outcome != Sent {
          DeleteUser(saved.value);
          return SignupFailed;
        }
        reply := SignupDone;
    }

    /** `verify_email` */
    method VerifyEmail(token: Token, now: Time) returns (reply: VerifyReply)
      modifies this
      ensures (State(), reply) == VerifyEmailSpec(old(State()), token, now)
    {
      var found := FindFirst(users, ByToken(token), nextUserId);
      if found.None? {
        return TokenNotFound;
      }
      var k := found.value;
      if !IsVerificationTokenValid(users[k].sentAt, now) {
        return LinkExpired;
      }
      if users[k].isEmailVerified {
        return AlreadyVerified;
      }
      users := users[k := users[k].(isEmailVerified := true, isActive := true)];
      reply := Verified;
    }

    /** `resend_verification_email` */
    method ResendVerificationEmail(isPost: bool, email: string, token: Token, now: Time, mailOk: bool) returns (reply: ResendReply)
      modifies this
      ensures (State(), reply) == ResendSpec(old(State()), isPost, email, token, now, mailOk)
    {
      if !isPost {
        return ResendForm;
      }
      var found := FindFirst(users, PendingEmail(email), nextUserId);
      if found.None? {
        return NoPendingUser;
      }
      var outcome := SendVerificationEmail(found.value, token, now, mailOk);
      reply := if outcome == Sent then Resent else ResendCrashed;
    }
  }
}

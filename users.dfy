/** The `User` row of `model/models.py` and its pure helpers: the display
    name, the 24-hour validity of the verification token, and the unique
    username derived from the e-mail address (`base`, then `base1`, `base2`,
    ...). */
module Users {
  import opened Base

  /** `email_verification_token`: a UUID, kept abstract. */
  type Token = nat

  /** A `users` row. `username` is nullable; `password` stands for whatever
      `set_password` stored. */
  datatype User = User(
    email: string,
    username: Option<string>,
    nickname: string,
    password: string,
    isStaff: bool,
    isSuperuser: bool,
    isActive: bool,
    isEmailVerified: bool,
    token: Token,
    sentAt: Option<Time>)

  /** `email.split('@')[0]`: everything before the first '@', or the whole
      string when there is none. */
  function LocalPart(email: string): (r: string)
    ensures '@' !in r
    ensures |r| <= |email| && r == email[..|r|]
    ensures |r| < |email| ==> email[|r|] == '@'
  {
    if |email| == 0 || email[0] == '@' then ""
    else [email[0]] + LocalPart(email[1..])
  }

  /** `get_display_name`: the nickname when it is not empty, else the local
      part of the e-mail address. */
  function DisplayName(u: User): (r: string)
    ensures u.nickname != "" ==> r == u.nickname
    ensures u.nickname == "" ==> |r| <= |u.email| && r == u.email[..|r|] && '@' !in r
    ensures u.nickname == "" && |r| < |u.email| ==> u.email[|r|] == '@'
    ensures '@' in r ==> r == u.nickname
  {
    if u.nickname != "" then u.nickname else LocalPart(u.email)
  }

  /** The number of seconds a verification link stays valid. */
  const VerificationWindow: int := 24 * 60 * 60

  /** `is_verification_token_valid`: a token never sent is valid; otherwise it
      is valid strictly before 24 hours after it was sent. */
  predicate IsVerificationTokenValid(sentAt: Option<Time>, now: Time)
    ensures IsVerificationTokenValid(sentAt, now) <==> sentAt.None? || now - sentAt.value < 86400
  {
    match sentAt
    case None => true
    case Some(t) => now < t + VerificationWindow
  }

  /** A link is valid for exactly the 86400 seconds that start when it is
      sent, and validity, once lost, is never regained. */
  lemma TokenValidityWindow(sent: Time, now: Time, later: Time)
    requires now <= later
    ensures IsVerificationTokenValid(Some(sent), now) <==> now - sent < 86400
    ensures IsVerificationTokenValid(None, now)
    ensures IsVerificationTokenValid(Some(sent), sent)
    ensures !IsVerificationTokenValid(Some(sent), sent + 86400)
    ensures IsVerificationTokenValid(Some(sent), later) ==> IsVerificationTokenValid(Some(sent), now)
  {
  }

  function DigitChar(d: nat): (c: char)
    requires d < 10
  {
    "0123456789"[d]
  }

  function DigitValue(c: char): nat {
    if '0' <= c <= '9' then (c as int - '0' as int) as nat else 0
  }

  predicate IsDigitChar(c: char) {
    '0' <= c <= '9'
  }

  /** `str(n)` for a natural number: its decimal digits, without leading
      zeros. */
  function DecimalString(n: nat): (s: string)
    ensures |s| > 0
    ensures forall i :: 0 <= i < |s| ==> IsDigitChar(s[i])
  {
    if n < 10 then [DigitChar(n)] else DecimalString(n / 10) + [DigitChar(n % 10)]
  }

  /** The value of a string of decimal digits. */
  function ParseDecimal(s: string): nat {
    if |s| == 0 then 0 else ParseDecimal(s[..|s| - 1]) * 10 + DigitValue(s[|s| - 1])
  }

  /** Reading back the digits of `n` gives `n`. */
  lemma {:induction false} ParseDecimalString(n: nat)
    ensures ParseDecimal(DecimalString(n)) == n
  {
    var s := DecimalString(n);
    if n < 10 {
      assert s[..0] == [];
      assert DigitValue(DigitChar(n)) == n;
    } else {
      ParseDecimalString(n / 10);
      assert s[..|s| - 1] == DecimalString(n / 10);
      assert DigitValue(DigitChar(n % 10)) == n % 10;
    }
  }

  /** The `k`-th name tried for `base`: `base` itself, then `f"{base}{k}"`. */
  function Candidate(base: string, k: nat): string {
    if k == 0 then base else base + DecimalString(k)
  }

  /** Different counters give different names. */
  lemma CandidateInjective(base: string, j: nat, k: nat)
    requires Candidate(base, j) == Candidate(base, k)
    ensures j == k
  {
    if j != 0 && k != 0 {
      var a := Candidate(base, j);
      assert a[|base|..] == DecimalString(j);
      assert Candidate(base, k)[|base|..] == DecimalString(k);
      ParseDecimalString(j);
      ParseDecimalString(k);
    }
  }

  /** The first `n` names tried. */
  function Tried(base: string, n: nat): (r: set<string>)
    ensures forall k :: 0 <= k < n ==> Candidate(base, k) in r
  {
    if n == 0 then {} else Tried(base, n - 1) + {Candidate(base, n - 1)}
  }

  /** A name tried later is not among the earlier ones. */
  lemma {:induction false} NotTriedYet(base: string, n: nat, k: nat)
    requires k >= n
    ensures Candidate(base, k) !in Tried(base, n)
  {
    if n > 0 {
      NotTriedYet(base, n - 1, k);
      if Candidate(base, k) == Candidate(base, n - 1) {
        CandidateInjective(base, k, n - 1);
      }
    }
  }

  /** The names not yet tried that are taken: one fewer after trying a taken
      name. */
  lemma TakenShrinks(base: string, n: nat, taken: set<string>)
    requires Candidate(base, n) in taken
    ensures |taken - Tried(base, n + 1)| < |taken - Tried(base, n)|
  {
    NotTriedYet(base, n, n);
    var c := Candidate(base, n);
    assert taken - Tried(base, n) == (taken - Tried(base, n + 1)) + {c};
    assert c !in taken - Tried(base, n + 1);
  }

  /** The first counter from `k` on whose name is free. */
  function FirstFree(base: string, taken: set<string>, k: nat): (r: nat)
    decreases |taken - Tried(base, k)|
  {
    if Candidate(base, k) !in taken then k
    else
      TakenShrinks(base, k, taken);
      FirstFree(base, taken, k + 1)
  }

  /** `FirstFree` is the least counter from `k` on whose name is free. */
  lemma {:induction false} FirstFreeIsLeast(base: string, taken: set<string>, k: nat)
    ensures k <= FirstFree(base, taken, k)
    ensures Candidate(base, FirstFree(base, taken, k)) !in taken
    ensures forall j :: k <= j < FirstFree(base, taken, k) ==> Candidate(base, j) in taken
    decreases |taken - Tried(base, k)|
  {
    if Candidate(base, k) in taken {
      TakenShrinks(base, k, taken);
      FirstFreeIsLeast(base, taken, k + 1);
    }
  }

  /** The username `_generate_unique_username` returns for `email` when the
      names in `taken` exist. */
  function UniqueUsername(email: string, taken: set<string>): string {
    Candidate(LocalPart(email), FirstFree(LocalPart(email), taken, 0))
  }

  /** The generated name is never taken; it is the local part itself when
      that is free, and otherwise the local part followed by the smallest
      counter k >= 1 whose name is free. */
  lemma UniqueUsernameIsFree(email: string, taken: set<string>)
    ensures UniqueUsername(email, taken) !in taken
    ensures LocalPart(email) !in taken ==> UniqueUsername(email, taken) == LocalPart(email)
    ensures LocalPart(email) in taken ==>
      exists k :: 1 <= k && UniqueUsername(email, taken) == LocalPart(email) + DecimalString(k)
        && forall j :: 1 <= j < k ==> LocalPart(email) + DecimalString(j) in taken
  {
    var base := LocalPart(email);
    FirstFreeIsLeast(base, taken, 0);
    var k := FirstFree(base, taken, 0);
    if base in taken {
      assert k != 0;
      forall j | 1 <= j < k
        ensures base + DecimalString(j) in taken
      {
        assert Candidate(base, j) in taken;
      }
      assert UniqueUsername(email, taken) == base + DecimalString(k);
    }
  }

  /** `_generate_unique_username` (and `_generate_unique_username_from_email`,
      whose `taken` leaves out the user's own row): try the local part, then
      append 1, 2, ... while the name exists. */
  method GenerateUniqueUsername(email: string, taken: set<string>) returns (username: string)
    ensures username == UniqueUsername(email, taken)
  {
    var base := LocalPart(email);
    username := base;
    var counter: nat := 1;
    while username in taken
      invariant username == Candidate(base, counter - 1)
      invariant FirstFree(base, taken, counter - 1) == FirstFree(base, taken, 0)
      decreases |taken - Tried(base, counter - 1)|
    {
      TakenShrinks(base, counter - 1, taken);
      username := base + DecimalString(counter);
      counter := counter + 1;
    }
  }
}

/** The field cleaning of `shop/forms.py`: cart quantities bounded by stock,
    and the checkout form's postal code and phone number. Each `clean_*`
    method is a function from the field's value to the cleaned value or the
    validation error. */
module Forms {
  import opened Base
  import opened Orders

  datatype FormError =
    | Required        // an empty required field
    | TooLong         // longer than the field's `max_length`
    | NullCharacter   // holds U+0000 (`ProhibitNullCharactersValidator`)
    | BelowMinimum    // `min_value=1`
    | AboveStock      // more than the product's stock
    | PostalFormat    // not seven digits once the hyphens are removed
    | PhoneNotDigits  // something other than digits once the separators are removed
    | PhoneLength     // neither 10 nor 11 digits

  /** `AddToCartForm.clean_quantity` and `UpdateCartItemForm.clean_quantity`,
      after the field's `min_value=1`: a quantity from 1 up to the stock of the
      product (for an update, of the cart item's product). */
  function CleanQuantity(quantity: int, stock: int): (r: Result<int, FormError>)
    ensures r.Ok? <==> 1 <= quantity <= stock
    ensures r.Ok? ==> r.value == quantity
    ensures r.Err? && quantity < 1 ==> r.error == BelowMinimum
    ensures r.Err? && quantity >= 1 ==> r.error == AboveStock
  {
    if quantity < 1 then Err(BelowMinimum)
    else if quantity > stock then Err(AboveStock)
    else Ok(quantity)
  }

  /** A quantity below 1 is rejected by both forms; it never removes the item. */
  lemma QuantityBoundary(stock: int)
    requires stock >= 1
    ensures CleanQuantity(stock, stock) == Ok(stock)
    ensures CleanQuantity(stock + 1, stock) == Err(AboveStock)
    ensures CleanQuantity(0, stock) == Err(BelowMinimum)
  {
  }

  predicate IsDigit(c: char) {
    '0' <= c <= '9'
  }

  /** `str.isdigit()` over ASCII digits: false for the empty string. */
  predicate AllDigits(s: string) {
    |s| > 0 && forall i :: 0 <= i < |s| ==> IsDigit(s[i])
  }

  /** The number of occurrences of `c` in `s`. */
  function Count(s: string, c: char): nat {
    if |s| == 0 then 0 else Count(s[..|s| - 1], c) + (if s[|s| - 1] == c then 1 else 0)
  }

  /** `s.replace(c, "")` */
  function Remove(s: string, c: char): (r: string)
    ensures |r| + Count(s, c) == |s|
    ensures forall x :: x in r <==> x in s && x != c
  {
    if |s| == 0 then []
    else
      var last := s[|s| - 1];
      assert s == s[..|s| - 1] + [last];
      Remove(s[..|s| - 1], c) + (if last == c then [] else [last])
  }

  lemma {:induction false} RemoveConcat(a: string, b: string, c: char)
    ensures Remove(a + b, c) == Remove(a, c) + Remove(b, c)
  {
    if |b| > 0 {
      var b' := b[..|b| - 1];
      assert (a + b)[..|a + b| - 1] == a + b';
      RemoveConcat(a, b', c);
    } else {
      assert a + b == a;
    }
  }

  lemma {:induction false} RemoveAbsent(s: string, c: char)
    requires c !in s
    ensures Remove(s, c) == s
  {
    if |s| > 0 {
      RemoveAbsent(s[..|s| - 1], c);
      assert s == s[..|s| - 1] + [s[|s| - 1]];
    }
  }

  /** `str.isspace()` for one character: what `str.strip()` removes (tab to
      carriage return, the separators 0x1C to 0x1F, space, and the Unicode
      spaces). */
  predicate IsSpace(c: char) {
    var n := c as int;
    || 9 <= n <= 13
    || 28 <= n <= 32
    || n == 0x85 || n == 0xA0 || n == 0x1680
    || 0x2000 <= n <= 0x200A
    || n == 0x2028 || n == 0x2029 || n == 0x202F || n == 0x205F || n == 0x3000
  }

  /** `s.lstrip()` */
  function StripStart(s: string): (r: string)
    ensures |r| <= |s| && r == s[|s| - |r|..]
    ensures forall k :: 0 <= k < |s| - |r| ==> IsSpace(s[k])
    ensures |r| > 0 ==> !IsSpace(r[0])
  {
    if |s| > 0 && IsSpace(s[0]) then StripStart(s[1..]) else s
  }

  /** `s.rstrip()` */
  function StripEnd(s: string): (r: string)
    ensures |r| <= |s| && r == s[..|r|]
    ensures forall k :: |r| <= k < |s| ==> IsSpace(s[k])
    ensures |r| > 0 ==> !IsSpace(r[|r| - 1])
  {
    if |s| > 0 && IsSpace(s[|s| - 1]) then StripEnd(s[..|s| - 1]) else s
  }

  /** `r` is `s` from index `i` on, with only whitespace cut off before and
      after it. */
  predicate TrimmedAt(s: string, r: string, i: nat) {
    && i + |r| <= |s|
    && r == s[i..i + |r|]
    && (forall k :: 0 <= k < i ==> IsSpace(s[k]))
    && (forall k :: i + |r| <= k < |s| ==> IsSpace(s[k]))
  }

  /** `s.strip()`, which a `CharField` applies first (its default
      `strip=True`): the slice of `s` left once the whitespace on both ends
      is cut off. */
  function Strip(s: string): (r: string)
    ensures |r| <= |s|
    ensures |r| > 0 ==> !IsSpace(r[0]) && !IsSpace(r[|r| - 1])
    ensures exists i: nat :: TrimmedAt(s, r, i)
  {
    var t := StripStart(s);
    var r := StripEnd(t);
    assert TrimmedAt(s, r, |s| - |t|);
    r
  }

  /** A string without whitespace is its own strip. */
  lemma StripNoSpace(s: string)
    requires forall k :: 0 <= k < |s| ==> !IsSpace(s[k])
    ensures Strip(s) == s
  {
  }

  /** Stripping twice is stripping once. */
  lemma StripIdempotent(s: string)
    ensures Strip(Strip(s)) == Strip(s)
  {
    var r := Strip(s);
    if |r| > 0 {
      assert StripStart(r) == r;
      assert StripEnd(r) == r;
    }
  }

  /** A `CharField`'s own checks, before its `clean_*` method: strip, then
      required, then its validators, `max_length` when it has one and the
      prohibition of U+0000 every `CharField` carries; the value passed on is
      the stripped one. */
  function CleanCharField(value: string, maxLength: Option<nat>): (r: Result<string, FormError>)
    ensures r.Ok? <==>
      && |Strip(value)| > 0
      && (maxLength.Some? ==> |Strip(value)| <= maxLength.value)
      && '\0' !in Strip(value)
    ensures r.Ok? ==> r.value == Strip(value)
    ensures r.Err? ==>
      r.error == (if |Strip(value)| == 0 then Required
                  else if maxLength.Some? && |Strip(value)| > maxLength.value then TooLong
                  else NullCharacter)
  {
    var v := Strip(value);
    if |v| == 0 then Err(Required)
    else if maxLength.Some? && |v| > maxLength.value then Err(TooLong)
    else if '\0' in v then Err(NullCharacter)
    else Ok(v)
  }

  /** Strip, `max_length=8`, then `clean_shipping_postal_code`: remove every
      hyphen, require exactly seven digits, and return them as `ddd-dddd`. */
  function CleanPostalCode(raw: string): (r: Result<string, FormError>)
    ensures r.Ok? <==> 0 < |Strip(raw)| <= 8 && AllDigits(Remove(Strip(raw), '-')) && |Remove(Strip(raw), '-')| == 7
    ensures r.Ok? ==> |r.value| == 8 && r.value[3] == '-'
    ensures r.Ok? ==> forall i :: 0 <= i < 8 && i != 3 ==> IsDigit(r.value[i])
    ensures r.Err? ==> r.error == if CleanCharField(raw, Some(8)).Err? then CleanCharField(raw, Some(8)).error else PostalFormat
  {
    match CleanCharField(raw, Some(8))
    case Err(e) => Err(e)
    case Ok(code) =>
      var digits := Remove(code, '-');
      if !AllDigits(digits) || |digits| != 7 then Err(PostalFormat)
      else Ok(digits[..3] + "-" + digits[3..])
  }

  /** Removing the hyphen put back after the third character gives the
      hyphen-free string back. */
  lemma RemoveReinsertedHyphen(d: string)
    requires '-' !in d && |d| >= 3
    ensures Remove(d[..3] + "-" + d[3..], '-') == d
  {
    RemoveConcat(d[..3] + "-", d[3..], '-');
    RemoveConcat(d[..3], "-", '-');
    assert '-' !in d[..3] && '-' !in d[3..];
    RemoveAbsent(d[..3], '-');
    RemoveAbsent(d[3..], '-');
    assert Remove("-", '-') == [] by {
      assert "-"[..0] == "";
    }
    assert d[..3] + d[3..] == d;
  }

  /** The cleaned postal code keeps the stripped input's digits in order: only
      hyphens are dropped and one is put back after the third digit. */
  lemma PostalCodeKeepsDigits(raw: string)
    requires CleanPostalCode(raw).Ok?
    ensures Remove(CleanPostalCode(raw).value, '-') == Remove(Strip(raw), '-')
  {
    var d := Remove(Strip(raw), '-');
    assert CleanPostalCode(raw).value == d[..3] + "-" + d[3..];
    RemoveReinsertedHyphen(d);
  }

  /** Postal-code cleaning is idempotent: its output is accepted and returned
      unchanged. */
  lemma PostalCodeIdempotent(raw: string)
    requires CleanPostalCode(raw).Ok?
    ensures CleanPostalCode(CleanPostalCode(raw).value) == CleanPostalCode(raw)
  {
    var c := CleanPostalCode(raw).value;
    StripNoSpace(c);
    PostalCodeKeepsDigits(raw);
  }

  /** Within the 8-character cap, an accepted postal code has at most one
      hyphen, anywhere, once stripped. */
  lemma PostalCodeHasAtMostOneHyphen(raw: string)
    requires CleanPostalCode(raw).Ok?
    ensures Count(Strip(raw), '-') <= 1
  {
  }

  /** The separators `clean_shipping_phone` removes. */
  predicate IsPhoneSeparator(c: char) {
    c == '-' || c == ' ' || c == '(' || c == ')'
  }

  /** `phone.replace("-", "").replace(" ", "").replace("(", "").replace(")", "")` */
  function PhoneDigits(phone: string): string {
    Remove(Remove(Remove(Remove(phone, '-'), ' '), '('), ')')
  }

  /** Strip, `max_length=20`, then `clean_shipping_phone`: after removing
      separators the rest must be digits (checked first, so the empty rest is
      a digit error) and 10 or 11 of them; the phone is returned stripped,
      separators kept. */
  function CleanPhone(raw: string): (r: Result<string, FormError>)
    ensures r.Ok? ==> r.value == Strip(raw)
    ensures r.Err? && CleanCharField(raw, Some(20)).Err? ==> r.error == CleanCharField(raw, Some(20)).error
    ensures r.Err? && CleanCharField(raw, Some(20)).Ok? ==>
      r.error == (if !AllDigits(PhoneDigits(Strip(raw))) then PhoneNotDigits else PhoneLength)
  {
    match CleanCharField(raw, Some(20))
    case Err(e) => Err(e)
    case Ok(phone) =>
      var digits := PhoneDigits(phone);
      if !AllDigits(digits) then Err(PhoneNotDigits)
      else if |digits| != 10 && |digits| != 11 then Err(PhoneLength)
      else Ok(phone)
  }

  /** The characters of `s` that are not separators, in order. */
  function NonSeparators(s: string): (r: string) {
    if |s| == 0 then []
    else NonSeparators(s[..|s| - 1]) + (if IsPhoneSeparator(s[|s| - 1]) then [] else [s[|s| - 1]])
  }

  lemma RemoveSnoc(t: string, x: char, c: char)
    ensures Remove(t + [x], c) == Remove(t, c) + (if x == c then [] else [x])
  {
    assert (t + [x])[..|t|] == t;
  }

  /** Appending a character to the phone appends it to its digits unless it
      is a separator. */
  lemma PhoneDigitsSnoc(t: string, x: char)
    ensures PhoneDigits(t + [x]) == PhoneDigits(t) + (if IsPhoneSeparator(x) then [] else [x])
  {
    var r1 := Remove(t, '-');
    var r2 := Remove(r1, ' ');
    var r3 := Remove(r2, '(');
    RemoveSnoc(t, x, '-');
    if x == '-' {
      assert Remove(t + [x], '-') == r1;
    } else {
      assert Remove(t + [x], '-') == r1 + [x];
      RemoveSnoc(r1, x, ' ');
      if x == ' ' {
        assert Remove(r1 + [x], ' ') == r2;
      } else {
        assert Remove(r1 + [x], ' ') == r2 + [x];
        RemoveSnoc(r2, x, '(');
        if x == '(' {
          assert Remove(r2 + [x], '(') == r3;
        } else {
          assert Remove(r2 + [x], '(') == r3 + [x];
          RemoveSnoc(r3, x, ')');
        }
      }
    }
  }

  /** The chain of four replacements removes exactly the separators. */
  lemma {:induction false} PhoneDigitsAreNonSeparators(s: string)
    ensures PhoneDigits(s) == NonSeparators(s)
  {
    if |s| > 0 {
      var t := s[..|s| - 1];
      PhoneDigitsAreNonSeparators(t);
      assert s == t + [s[|s| - 1]];
      PhoneDigitsSnoc(t, s[|s| - 1]);
    }
  }

  /** `CleanPhone` unfolded: the strip, the cap, then digits only, then 10 or
      11 of them. */
  lemma CleanPhoneOk(raw: string)
    ensures var p := Strip(raw);
      CleanPhone(raw).Ok? <==> 0 < |p| <= 20 && AllDigits(PhoneDigits(p)) && (|PhoneDigits(p)| == 10 || |PhoneDigits(p)| == 11)
  {
  }

  /** A phone is accepted exactly when, once stripped, it has at most 20
      characters, every character is a digit or a separator, and it holds 10
      or 11 digits. */
  lemma PhoneAcceptance(raw: string)
    ensures var p := Strip(raw);
      CleanPhone(raw).Ok? <==>
      && |p| <= 20
      && (forall c :: c in p ==> IsDigit(c) || IsPhoneSeparator(c))
      && (|NonSeparators(p)| == 10 || |NonSeparators(p)| == 11)
  {
    var p := Strip(raw);
    CleanPhoneOk(raw);
    PhoneDigitsAreNonSeparators(p);
    NonSeparatorsMembers(p);
    NonSeparatorsShorter(p);
    var d := NonSeparators(p);
    assert (forall i :: 0 <= i < |d| ==> IsDigit(d[i])) <==> (forall c :: c in d ==> IsDigit(c)) by {
      if forall i :: 0 <= i < |d| ==> IsDigit(d[i]) {
        forall c | c in d ensures IsDigit(c) {
          var i :| 0 <= i < |d| && d[i] == c;
        }
      }
    }
  }

  lemma {:induction false} NonSeparatorsMembers(s: string)
    ensures forall c :: c in NonSeparators(s) <==> c in s && !IsPhoneSeparator(c)
  {
    if |s| > 0 {
      NonSeparatorsMembers(s[..|s| - 1]);
      assert s == s[..|s| - 1] + [s[|s| - 1]];
    }
  }

  /** The raw fields of the checkout form. */
  datatype CheckoutInput = CheckoutInput(name: string, postalCode: string, address: string, phone: string)

  datatype Field = NameField | PostalCodeField | AddressField | PhoneField

  /** The fields whose cleaning failed, given which ones failed. */
  function FailedFields(name: bool, postal: bool, address: bool, phone: bool): (r: set<Field>)
    ensures NameField in r <==> name
    ensures PostalCodeField in r <==> postal
    ensures AddressField in r <==> address
    ensures PhoneField in r <==> phone
    ensures r == {} <==> !name && !postal && !address && !phone
  {
    (if name then {NameField} else {})
      + (if postal then {PostalCodeField} else {})
      + (if address then {AddressField} else {})
      + (if phone then {PhoneField} else {})
  }

  /** `CheckoutForm.is_valid()`: every field cleans, or the set of fields with
      errors. `shipping_name` has `max_length=100`; `shipping_address` has no
      length cap; every field is stripped first. */
  function CleanCheckout(input: CheckoutInput): (r: Result<ShippingInfo, set<Field>>)
    ensures r.Ok? <==>
      && CleanCharField(input.name, Some(100)).Ok?
      && CleanPostalCode(input.postalCode).Ok?
      && CleanCharField(input.address, None).Ok?
      && CleanPhone(input.phone).Ok?
    ensures r.Ok? ==> r.value == ShippingInfo(Strip(input.name), CleanPostalCode(input.postalCode).value,
                                              Strip(input.address), Strip(input.phone))
    ensures r.Err? ==>
      && r.error != {}
      && (NameField in r.error <==> CleanCharField(input.name, Some(100)).Err?)
      && (PostalCodeField in r.error <==> CleanPostalCode(input.postalCode).Err?)
      && (AddressField in r.error <==> CleanCharField(input.address, None).Err?)
      && (PhoneField in r.error <==> CleanPhone(input.phone).Err?)
  {
    var name := CleanCharField(input.name, Some(100));
    var postal := CleanPostalCode(input.postalCode);
    var address := CleanCharField(input.address, None);
    var phone := CleanPhone(input.phone);
    var failed := FailedFields(name.Err?, postal.Err?, address.Err?, phone.Err?);
    if failed == {} then
      Ok(ShippingInfo(name.value, postal.value, address.value, phone.value))
    else
      Err(failed)
  }

  /** The name, postal code and phone of a cleaned form fit their order
      columns: name up to 100, postal code exactly 8 (`max_length=8`), phone
      10 to 20 characters (`max_length=20`), none of them padded with
      whitespace. The address has no cap on the form. */
  lemma CleanedCheckoutFitsOrder(input: CheckoutInput)
    requires CleanCheckout(input).Ok?
    ensures 0 < |CleanCheckout(input).value.name| <= 100
    ensures |CleanCheckout(input).value.postalCode| == 8
    ensures 10 <= |CleanCheckout(input).value.phone| <= 20
    ensures Strip(CleanCheckout(input).value.name) == CleanCheckout(input).value.name
    ensures Strip(CleanCheckout(input).value.phone) == CleanCheckout(input).value.phone
  {
    var info := CleanCheckout(input).value;
    assert info.name == Strip(input.name) && info.phone == Strip(input.phone);
    StripIdempotent(input.name);
    StripIdempotent(input.phone);
    var phone := Strip(input.phone);
    CleanPhoneOk(input.phone);
    PhoneDigitsAreNonSeparators(phone);
    NonSeparatorsShorter(phone);
  }

  lemma {:induction false} NonSeparatorsShorter(s: string)
    ensures |NonSeparators(s)| <= |s|
  {
    if |s| > 0 {
      NonSeparatorsShorter(s[..|s| - 1]);
    }
  }
}

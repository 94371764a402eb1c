/** The field rules the forms share: digit patterns, presence, and the
    collection of per-field error messages a form shows. A form value that
    is the empty string counts as absent, since the forms turn `''` into
    "no value" before their rules run. */
module Validation {
  import opened Common

  predicate IsDigit(c: char)
  {
    '0' <= c <= '9'
  }

  predicate AllDigits(s: string)
  {
    forall i :: 0 <= i < |s| ==> IsDigit(s[i])
  }

  /** `^\d{n}$`: exactly `n` characters, every one a decimal digit. */
  predicate DigitString(s: string, n: nat)
  {
    |s| == n && AllDigits(s)
  }

  /** A PIN code: `^\d{6}$`. */
  predicate PinCode(s: string)
  {
    DigitString(s, 6)
  }

  /** A phone number on the application form: `^\d{10}$`. */
  predicate PhoneNumber(s: string)
  {
    DigitString(s, 10)
  }

  /** An Aadhaar number: `^\d{12}$`. */
  predicate AadhaarNumber(s: string)
  {
    DigitString(s, 12)
  }

  /** The number an OTP is sent to: `^\+?[0-9]{10,12}$`, an optional
      leading plus followed by ten to twelve digits. */
  predicate OtpPhone(s: string)
  {
    var body := if |s| > 0 && s[0] == '+' then s[1..] else s;
    10 <= |body| <= 12 && AllDigits(body)
  }

  /** A value is present when it is not the empty string. */
  predicate Present(s: string)
  {
    s != ""
  }

  /** Matching `^\d{n}$` by one left-to-right scan. */
  method MatchDigitString(s: string, n: nat) returns (ok: bool)
    ensures ok <==> DigitString(s, n)
  {
    if |s| != n {
      return false;
    }
    var i := 0;
    while i < |s|
      invariant 0 <= i <= |s|
      invariant forall j :: 0 <= j < i ==> IsDigit(s[j])
    {
      if !IsDigit(s[i]) {
        return false;
      }
      i := i + 1;
    }
    return true;
  }

  /** Matching `^\+?[0-9]{10,12}$` as the regular expression engine does:
      consume an optional `+`, then as many digits as there are, and
      accept when the input is used up after ten to twelve digits. */
  method MatchOtpPhone(s: string) returns (ok: bool)
    ensures ok <==> OtpPhone(s)
  {
    var start := if |s| > 0 && s[0] == '+' then 1 else 0;
    var i := start;
    while i < |s| && IsDigit(s[i])
      invariant start <= i <= |s|
      invariant forall j :: start <= j < i ==> IsDigit(s[j])
    {
      i := i + 1;
    }
    ghost var body := s[start..];
    assert forall j :: 0 <= j < i - start ==> body[j] == s[start + j];
    if i < |s| {
      assert !IsDigit(body[i - start]);
      return false;
    }
    ok := 10 <= i - start <= 12;
  }

  /** The outcome of one field's rules: absent fails with `required`,
      present but `valid` false fails with `invalid`. */
  function Check(present: bool, valid: bool, required: string, invalid: string): (e: Option<string>)
    ensures e.None? <==> present && valid
    ensures e.Some? ==> e.value == (if present then invalid else required)
  {
    if !present then Some(required) else if !valid then Some(invalid) else None
  }

  /** Adding one field's outcome to the error messages a form shows: a
      failing field gets its message under its name. */
  function Report(field: string, outcome: Option<string>, errors: map<string, string>): (r: map<string, string>)
    ensures r == map[] <==> outcome.None? && errors == map[]
    ensures outcome.Some? ==> field in r && r[field] == outcome.value
    ensures forall k :: k in errors ==> k in r
    ensures forall k :: k in r && k != field ==> k in errors && r[k] == errors[k]
  {
    if outcome.Some? then
      var r := errors[field := outcome.value];
      assert field in r;
      r
    else errors
  }
}

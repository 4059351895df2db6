/** strconv.FormatInt and strconv.ParseInt in base 10 for int64. */
module Decimal {
  import opened Core

  predicate IsDigit(c: char) {
    '0' <= c <= '9'
  }

  predicate AllDigits(s: string) {
    s != "" && forall c | c in s :: IsDigit(c)
  }

  function DigitValue(c: char): nat
    requires IsDigit(c)
  {
    c as int - '0' as int
  }

  function DigitOf(d: nat): (c: char)
    requires d < 10
    ensures IsDigit(c) && DigitValue(c) == d
  {
    (d + '0' as int) as char
  }

  function FormatNat(n: nat): (s: string)
    ensures AllDigits(s)
  {
    if n < 10 then [DigitOf(n)] else FormatNat(n / 10) + [DigitOf(n % 10)]
  }

  /** strconv.FormatInt(n, 10). */
  function FormatInt(n: int): (s: string)
    ensures s != ""
    ensures forall c | c in s :: IsDigit(c) || c == '-'
  {
    if n < 0 then "-" + FormatNat(-n) else FormatNat(n)
  }

  function DigitsValue(s: string): nat
    requires forall c | c in s :: IsDigit(c)
  {
    if s == "" then 0 else DigitsValue(s[..|s| - 1]) * 10 + DigitValue(s[|s| - 1])
  }

  /** strconv.ParseInt(s, 10, 64): an optional sign, then digits only, within int64. */
  function ParseInt(s: string): (r: Option<int>)
    ensures r.Some? ==> IsInt64(r.value)
  {
    if s == "" then None
    else
      var signed := s[0] == '+' || s[0] == '-';
      var digits := if signed then s[1..] else s;
      if !AllDigits(digits) then None
      else
        var magnitude: int := DigitsValue(digits);
        var n: int := if s[0] == '-' then -magnitude else magnitude;
        if IsInt64(n) then Some(n) else None
  }

  lemma {:induction false} FormatNatRoundTrip(n: nat)
    ensures DigitsValue(FormatNat(n)) == n
  {
    if n >= 10 {
      FormatNatRoundTrip(n / 10);
      var s := FormatNat(n / 10) + [DigitOf(n % 10)];
      assert s[..|s| - 1] == FormatNat(n / 10);
    } else {
      assert DigitsValue([DigitOf(n)]) == DigitsValue("") * 10 + DigitValue(DigitOf(n));
    }
  }

  lemma FormatIntSign(n: int)
    ensures n < 0 <==> FormatInt(n)[0] == '-'
    ensures n < 0 ==> FormatInt(n)[1..] == FormatNat(-n)
  {
    if n >= 0 {
      FormatNatIsUnsigned(n);
    }
  }

  lemma FormatNatIsUnsigned(n: nat)
    ensures FormatNat(n)[0] != '-' && FormatNat(n)[0] != '+'
  {
    assert FormatNat(n)[0] in FormatNat(n);
  }

  lemma ParseUnsigned(n: nat)
    requires IsInt64(n)
    ensures ParseInt(FormatNat(n)) == Some(n)
  {
    FormatNatIsUnsigned(n);
    FormatNatRoundTrip(n);
  }

  lemma ParseNegative(n: int)
    requires IsInt64(n) && n < 0
    ensures ParseInt("-" + FormatNat(-n)) == Some(n)
  {
    FormatNatRoundTrip(-n);
    assert ("-" + FormatNat(-n))[1..] == FormatNat(-n);
  }

  /** Formatting then parsing gives the number back, for every int64. */
  lemma FormatIntRoundTrip(n: int)
    requires IsInt64(n)
    ensures ParseInt(FormatInt(n)) == Some(n)
  {
    if n < 0 {
      ParseNegative(n);
    } else {
      ParseUnsigned(n);
    }
  }

  lemma FormatIntInjective(m: int, n: int)
    requires FormatInt(m) == FormatInt(n)
    ensures m == n
  {
    FormatIntSign(m);
    FormatIntSign(n);
    if m >= 0 {
      FormatNatRoundTrip(m);
      FormatNatRoundTrip(n);
    } else {
      FormatNatRoundTrip(-m);
      FormatNatRoundTrip(-n);
    }
  }
}

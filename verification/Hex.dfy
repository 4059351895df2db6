/** encoding/hex: EncodeToString and DecodeString (RFC 4648, section 8). */
module Hex {
  import opened Core
  import opened Text

  predicate IsLowerDigit(c: char) {
    '0' <= c <= '9' || 'a' <= c <= 'f'
  }

  predicate IsLower(s: string) {
    forall i | 0 <= i < |s| :: IsLowerDigit(s[i])
  }

  /** Value of a hexadecimal digit; DecodeString accepts both cases. */
  function DigitValue(c: char): (v: Option<nat>)
    ensures v.Some? ==> v.value < 16
  {
    if '0' <= c <= '9' then Some(c as int - '0' as int)
    else if 'a' <= c <= 'f' then Some(c as int - 'a' as int + 10)
    else if 'A' <= c <= 'F' then Some(c as int - 'A' as int + 10)
    else None
  }

  function LowerDigit(v: nat): (c: char)
    requires v < 16
    ensures IsLowerDigit(c) && DigitValue(c) == Some(v)
  {
    if v < 10 then (v + '0' as int) as char else (v - 10 + 'a' as int) as char
  }

  /** The digits of percent-encoding, which Go writes in upper case. */
  function UpperDigit(v: nat): (c: char)
    requires v < 16
    ensures DigitValue(c) == Some(v)
  {
    if v < 10 then (v + '0' as int) as char else (v - 10 + 'A' as int) as char
  }

  function Encode(bytes: string): (s: string)
    requires IsBytes(bytes)
    ensures |s| == 2 * |bytes|
    ensures IsLower(s)
  {
    if bytes == "" then ""
    else
      var b := bytes[0] as int;
      [LowerDigit(b / 16), LowerDigit(b % 16)] + Encode(bytes[1..])
  }

  function Decode(s: string): (bytes: Option<string>)
    ensures bytes.Some? ==> IsBytes(bytes.value) && |s| == 2 * |bytes.value|
  {
    if s == "" then Some("")
    else if |s| == 1 then None
    else
      match (DigitValue(s[0]), DigitValue(s[1]), Decode(s[2..]))
      case (Some(hi), Some(lo), Some(rest)) => Some([(hi * 16 + lo) as char] + rest)
      case _ => None
  }

  lemma DigitsOfByte(hi: nat, lo: nat)
    requires hi < 16 && lo < 16
    ensures (hi * 16 + lo) / 16 == hi && (hi * 16 + lo) % 16 == lo
  {}

  lemma EncodeStep(c: char, rest: string)
    requires c as int < 256 && IsBytes(rest)
    ensures IsBytes([c] + rest)
    ensures Encode([c] + rest) == [LowerDigit(c as int / 16), LowerDigit(c as int % 16)] + Encode(rest)
  {
    assert ([c] + rest)[1..] == rest;
  }

  lemma DecodeStep(a: char, b: char, rest: string)
    ensures Decode([a, b] + rest)
            == match (DigitValue(a), DigitValue(b), Decode(rest))
               case (Some(hi), Some(lo), Some(bytes)) => Some([(hi * 16 + lo) as char] + bytes)
               case _ => None
  {
    assert ([a, b] + rest)[2..] == rest;
  }

  lemma {:induction false} DecodeEncode(bytes: string)
    requires IsBytes(bytes)
    ensures Decode(Encode(bytes)) == Some(bytes)
  {
    if bytes != "" {
      var (c, rest) := (bytes[0], bytes[1..]);
      DecodeEncode(rest);
      assert bytes == [c] + rest;
      EncodeStep(c, rest);
      DecodeStep(LowerDigit(c as int / 16), LowerDigit(c as int % 16), Encode(rest));
    }
  }

  lemma DigitExact(c: char)
    requires DigitValue(c).Some?
    ensures LowerDigit(DigitValue(c).value) == c <==> IsLowerDigit(c)
  {}

  lemma LowerStep(a: char, b: char, rest: string)
    ensures IsLower([a, b] + rest) <==> IsLowerDigit(a) && IsLowerDigit(b) && IsLower(rest)
  {
    var s := [a, b] + rest;
    assert s[0] == a && s[1] == b;
    assert forall i | 0 <= i < |rest| :: s[i + 2] == rest[i];
  }

  /** The inverse direction holds exactly on the lower-case form. */
  lemma {:induction false} EncodeDecode(s: string)
    requires Decode(s).Some?
    ensures Encode(Decode(s).value) == s <==> IsLower(s)
  {
    if s != "" {
      var (a, b, rest) := (s[0], s[1], s[2..]);
      assert s == [a, b] + rest;
      DecodeStep(a, b, rest);
      var (hi, lo) := (DigitValue(a).value, DigitValue(b).value);
      EncodeDecode(rest);
      DigitsOfByte(hi, lo);
      EncodeStep((hi * 16 + lo) as char, Decode(rest).value);
      DigitExact(a);
      DigitExact(b);
      LowerStep(a, b, rest);
      SameParts(LowerDigit(hi), LowerDigit(lo), Encode(Decode(rest).value), a, b, rest);
    }
  }

  lemma SameParts(a: char, b: char, rest: string, a': char, b': char, rest': string)
    ensures [a, b] + rest == [a', b'] + rest' <==> a == a' && b == b' && rest == rest'
  {
    var (s, s') := ([a, b] + rest, [a', b'] + rest');
    assert s[0] == a && s[1] == b && s[2..] == rest;
    assert s'[0] == a' && s'[1] == b' && s'[2..] == rest';
  }

  /** Every byte becomes two digits, the high half first. */
  lemma {:induction false} EncodeAt(bytes: string, i: nat)
    requires IsBytes(bytes) && i < |bytes|
    ensures Encode(bytes)[2 * i] == "0123456789abcdef"[bytes[i] as int / 16]
    ensures Encode(bytes)[2 * i + 1] == "0123456789abcdef"[bytes[i] as int % 16]
  {
    if i == 0 {
      DigitAt(bytes[0] as int / 16);
      DigitAt(bytes[0] as int % 16);
    } else {
      EncodeAt(bytes[1..], i - 1);
      assert Encode(bytes)[2..] == Encode(bytes[1..]);
    }
  }

  lemma DigitAt(v: nat)
    requires v < 16
    ensures LowerDigit(v) == "0123456789abcdef"[v]
  {}
}

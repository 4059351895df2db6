/** Percent-encoding as net/url applies it to path segments and query components
    (RFC 3986, section 2.1). */
module Percent {
  import opened Core
  import opened Text
  import Hex

  /** Characters url.PathEscape leaves alone: the unreserved ones and `$&+:=@`. */
  predicate IsLiteral(c: char) {
    || 'A' <= c <= 'Z' || 'a' <= c <= 'z' || '0' <= c <= '9'
    || c in {'-', '_', '.', '~', '$', '&', '+', ':', '=', '@'}
  }

  /** url.PathEscape. */
  function PathEscape(s: string): (t: string)
    requires IsBytes(s)
    ensures forall i | 0 <= i < |t| :: IsLiteral(t[i]) || t[i] == '%'
    ensures s != "" ==> t != ""
  {
    if s == "" then ""
    else
      var b := s[0] as int;
      var rest := PathEscape(s[1..]);
      if IsLiteral(s[0]) then [s[0]] + rest
      else ['%', Hex.UpperDigit(b / 16), Hex.UpperDigit(b % 16)] + rest
  }

  /** url.PathUnescape, or url.QueryUnescape when `plusIsSpace`. */
  function Unescape(s: string, plusIsSpace: bool): Option<string> {
    if s == "" then Some("")
    else if s[0] == '%' then
      if |s| < 3 then None
      else
        match (Hex.DigitValue(s[1]), Hex.DigitValue(s[2]), Unescape(s[3..], plusIsSpace))
        case (Some(hi), Some(lo), Some(rest)) => Some([(hi * 16 + lo) as char] + rest)
        case _ => None
    else
      match Unescape(s[1..], plusIsSpace)
      case None => None
      case Some(rest) => Some([if plusIsSpace && s[0] == '+' then ' ' else s[0]] + rest)
  }

  lemma {:induction false} UnescapeEscape(s: string)
    requires IsBytes(s)
    ensures Unescape(PathEscape(s), false) == Some(s)
  {
    if s != "" {
      UnescapeEscape(s[1..]);
      var t := PathEscape(s);
      assert [s[0]] + s[1..] == s;
      if IsLiteral(s[0]) {
        assert t[1..] == PathEscape(s[1..]);
      } else {
        assert t[3..] == PathEscape(s[1..]);
      }
    }
  }

  /** Escaping leaves exactly the texts of literal characters alone. */
  lemma {:induction false} EscapeKeepsLiterals(s: string)
    requires IsBytes(s)
    ensures PathEscape(s) == s <==> forall i | 0 <= i < |s| :: IsLiteral(s[i])
    ensures |PathEscape(s)| >= |s|
  {
    if s != "" {
      EscapeKeepsLiterals(s[1..]);
      assert s == [s[0]] + s[1..];
      if IsLiteral(s[0]) {
        assert PathEscape(s)[1..] == PathEscape(s[1..]) && s[1..] == ([s[0]] + s[1..])[1..];
        assert forall i | 0 < i < |s| :: s[i] == s[1..][i - 1];
      }
    }
  }

  /** Without `%` a path segment is read as it stands, and in a query each plus is a space. */
  lemma {:induction false} PlusIsSpace(s: string)
    requires '%' !in s
    ensures Unescape(s, false) == Some(s)
    ensures Unescape(s, true).Some? && |Unescape(s, true).value| == |s|
    ensures forall i | 0 <= i < |s| :: Unescape(s, true).value[i] == if s[i] == '+' then ' ' else s[i]
  {
    if s != "" {
      PlusIsSpace(s[1..]);
      assert [s[0]] + s[1..] == s;
      assert forall i | 0 < i < |s| :: s[i] == s[1..][i - 1];
    }
  }

  /** Text without `%` and `+` passes both decoders unchanged. */
  lemma UnescapePlain(s: string, plusIsSpace: bool)
    requires '%' !in s && '+' !in s
    ensures Unescape(s, plusIsSpace) == Some(s)
  {
    PlusIsSpace(s);
    if plusIsSpace {
      assert Unescape(s, true).value == s;
    }
  }
}

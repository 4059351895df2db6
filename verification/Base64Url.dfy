/** base64.RawURLEncoding: the unpadded URL-safe alphabet of RFC 4648, section 5. */
module Base64Url {
  import opened Core
  import opened Text

  predicate IsSymbol(c: char) {
    'A' <= c <= 'Z' || 'a' <= c <= 'z' || '0' <= c <= '9' || c == '-' || c == '_'
  }

  predicate IsSymbols(s: string) {
    forall i | 0 <= i < |s| :: IsSymbol(s[i])
  }

  function Value(c: char): (v: nat)
    requires IsSymbol(c)
    ensures v < 64
  {
    if 'A' <= c <= 'Z' then c as int - 'A' as int
    else if 'a' <= c <= 'z' then c as int - 'a' as int + 26
    else if '0' <= c <= '9' then c as int - '0' as int + 52
    else if c == '-' then 62
    else 63
  }

  function Symbol(v: nat): (c: char)
    requires v < 64
    ensures IsSymbol(c) && Value(c) == v
  {
    if v < 26 then (v + 'A' as int) as char
    else if v < 52 then (v - 26 + 'a' as int) as char
    else if v < 62 then (v - 52 + '0' as int) as char
    else if v == 62 then '-'
    else '_'
  }

  /** The symbols of one group of up to three bytes. */
  function EncodeGroup(g: string): (s: string)
    requires 1 <= |g| <= 3 && IsBytes(g)
    ensures |s| == |g| + 1
    ensures IsSymbols(s)
  {
    var a := g[0] as int;
    if |g| == 1 then [Symbol(a / 4), Symbol(a % 4 * 16)]
    else
      var b := g[1] as int;
      if |g| == 2 then [Symbol(a / 4), Symbol(a % 4 * 16 + b / 16), Symbol(b % 16 * 4)]
      else
        var c := g[2] as int;
        [Symbol(a / 4), Symbol(a % 4 * 16 + b / 16), Symbol(b % 16 * 4 + c / 64), Symbol(c % 64)]
  }

  /** The bytes of one group of two to four symbols. As in Go's non-strict decoder the
      unused low bits of a short group are ignored. */
  function DecodeGroup(s: string): (g: string)
    requires 2 <= |s| <= 4
    requires IsSymbols(s)
    ensures |g| == |s| - 1 && IsBytes(g)
  {
    var x, y := Value(s[0]), Value(s[1]);
    var a := (x * 4 + y / 16) as char;
    if |s| == 2 then [a]
    else
      var z := Value(s[2]);
      var b := (y % 16 * 16 + z / 4) as char;
      if |s| == 3 then [a, b]
      else [a, b, (z % 4 * 64 + Value(s[3])) as char]
  }

  function Encode(bytes: string): (s: string)
    requires IsBytes(bytes)
    ensures IsSymbols(s)
    ensures bytes != "" ==> s != ""
  {
    if bytes == "" then ""
    else if |bytes| <= 3 then EncodeGroup(bytes)
    else EncodeGroup(bytes[..3]) + Encode(bytes[3..])
  }

  /** Go's decoder drops CR and LF wherever they occur. */
  function DropNewlines(s: string): (t: string)
    ensures '\r' !in s && '\n' !in s ==> t == s
  {
    if s == "" then ""
    else if s[0] == '\r' || s[0] == '\n' then DropNewlines(s[1..])
    else [s[0]] + DropNewlines(s[1..])
  }

  function DecodeSymbols(s: string): (bytes: Option<string>)
    requires IsSymbols(s)
    ensures bytes.Some? ==> IsBytes(bytes.value)
    ensures bytes.None? <==> |s| % 4 == 1
  {
    if s == "" then Some("")
    else if |s| == 1 then None
    else if |s| <= 4 then Some(DecodeGroup(s))
    else
      match DecodeSymbols(s[4..])
      case None => None
      case Some(rest) => Some(DecodeGroup(s[..4]) + rest)
  }

  /** RawURLEncoding.DecodeString. */
  function Decode(s: string): (bytes: Option<string>)
    ensures bytes.Some? ==> IsBytes(bytes.value)
  {
    var t := DropNewlines(s);
    if IsSymbols(t) then DecodeSymbols(t) else None
  }

  lemma DecodeGroupEncodeGroup(g: string)
    requires 1 <= |g| <= 3 && IsBytes(g)
    ensures DecodeGroup(EncodeGroup(g)) == g
  {
    var s := EncodeGroup(g);
    var a := g[0] as int;
    var x, y := Value(s[0]), Value(s[1]);
    assert x == a / 4;
    if |g| == 1 {
      assert y == a % 4 * 16;
      assert x * 4 + y / 16 == a;
    } else {
      var b := g[1] as int;
      var z := Value(s[2]);
      assert y == a % 4 * 16 + b / 16;
      assert x * 4 + y / 16 == a && y % 16 == b / 16;
      if |g| == 2 {
        assert z == b % 16 * 4;
        assert b / 16 * 16 + z / 4 == b;
      } else {
        var c := g[2] as int;
        assert z == b % 16 * 4 + c / 64;
        assert b / 16 * 16 + z / 4 == b && z % 4 == c / 64;
      }
    }
  }

  lemma {:induction false} DecodeSymbolsEncode(bytes: string)
    requires IsBytes(bytes)
    ensures DecodeSymbols(Encode(bytes)) == Some(bytes)
  {
    if bytes == "" {
    } else if |bytes| <= 3 {
      DecodeGroupEncodeGroup(bytes);
    } else {
      var s := Encode(bytes);
      DecodeGroupEncodeGroup(bytes[..3]);
      DecodeSymbolsEncode(bytes[3..]);
      assert s[..4] == EncodeGroup(bytes[..3]);
      assert s[4..] == Encode(bytes[3..]);
      assert bytes == bytes[..3] + bytes[3..];
    }
  }

  lemma DecodeEncode(bytes: string)
    requires IsBytes(bytes)
    ensures Decode(Encode(bytes)) == Some(bytes)
  {
    DecodeSymbolsEncode(bytes);
  }

  lemma LetterAt(v: nat)
    requires v < 26
    ensures "ABCDEFGHIJKLMNOPQRSTUVWXYZ"[v] == (v + 'A' as int) as char
    ensures "abcdefghijklmnopqrstuvwxyz"[v] == (v + 'a' as int) as char
  {}

  /** The alphabet of RFC 4648, section 5, in order. */
  lemma SymbolAt(v: nat)
    requires v < 64
    ensures v < 26 ==> Symbol(v) == "ABCDEFGHIJKLMNOPQRSTUVWXYZ"[v]
    ensures 26 <= v < 52 ==> Symbol(v) == "abcdefghijklmnopqrstuvwxyz"[v - 26]
    ensures 52 <= v ==> Symbol(v) == "0123456789-_"[v - 52]
  {
    if v < 26 {
      LetterAt(v);
    } else if v < 52 {
      LetterAt(v - 26);
    }
  }

  /** A group is one number in base 256 and in base 64, filled up with zero bits on the right. */
  lemma GroupIsOneNumber(g: string)
    requires 1 <= |g| <= 3 && IsBytes(g)
    ensures var s := EncodeGroup(g);
            && IsSymbols(s) && |s| == |g| + 1
            && (|g| == 1 ==> Value(s[0]) * 64 + Value(s[1]) == g[0] as int * 16)
            && (|g| == 2 ==>
                  Value(s[0]) * 4096 + Value(s[1]) * 64 + Value(s[2]) == (g[0] as int * 256 + g[1] as int) * 4)
            && (|g| == 3 ==>
                  Value(s[0]) * 262144 + Value(s[1]) * 4096 + Value(s[2]) * 64 + Value(s[3])
                  == g[0] as int * 65536 + g[1] as int * 256 + g[2] as int)
  {}

  lemma EncodeStep(g: string, rest: string)
    requires IsBytes(g) && IsBytes(rest) && |g| == 3
    ensures IsBytes(g + rest) && Encode(g + rest) == EncodeGroup(g) + Encode(rest)
  {
    if rest == "" {
      assert g + rest == g;
    } else {
      assert (g + rest)[..3] == g && (g + rest)[3..] == rest;
    }
  }

  lemma EncodeAppendStep(g: string, rest: string, b: string)
    requires IsBytes(g) && IsBytes(rest) && IsBytes(b) && IsBytes(rest + b) && |g| == 3
    requires Encode(rest + b) == Encode(rest) + Encode(b)
    ensures IsBytes(g + rest) && IsBytes(g + rest + b)
    ensures Encode(g + rest + b) == Encode(g + rest) + Encode(b)
  {
    EncodeStep(g, rest);
    EncodeStep(g, rest + b);
    Regroup(g, rest, b);
    Regroup(EncodeGroup(g), Encode(rest), Encode(b));
  }

  lemma Regroup(a: string, b: string, c: string)
    ensures a + b + c == a + (b + c)
  {}

  /** Groups of three bytes are encoded one after the other, the rest last. */
  lemma {:induction false} EncodeAppend(a: string, b: string)
    requires IsBytes(a) && IsBytes(b) && |a| % 3 == 0
    ensures IsBytes(a + b) && Encode(a + b) == Encode(a) + Encode(b)
    decreases |a|
  {
    if a == "" {
      assert a + b == b;
    } else {
      assert a == a[..3] + a[3..];
      EncodeAppend(a[3..], b);
      EncodeAppendStep(a[..3], a[3..], b);
    }
  }

  lemma {:induction false} DropNewlinesAppend(a: string, b: string)
    ensures DropNewlines(a + b) == DropNewlines(a) + DropNewlines(b)
  {
    if a == "" {
      assert a + b == b;
    } else {
      assert (a + b)[1..] == a[1..] + b;
      DropNewlinesAppend(a[1..], b);
    }
  }

  lemma DropOneNewline(a: string, b: string, c: char)
    requires c == '\n' || c == '\r'
    ensures DropNewlines(a + [c] + b) == DropNewlines(a + b)
  {
    DropNewlinesAppend(a + [c], b);
    DropNewlinesAppend(a, [c]);
    DropNewlinesAppend(a, b);
    assert [c][1..] == "" && DropNewlines([c]) == "";
  }

  /** A path text has other spellings: line breaks may stand anywhere in it. */
  lemma NewlinesAreIgnored(a: string, b: string, c: char)
    requires c == '\n' || c == '\r'
    ensures Decode(a + [c] + b) == Decode(a + b)
  {
    DropOneNewline(a, b, c);
  }
}

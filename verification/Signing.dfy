/** HMAC request signing for media URLs (internal/sign). The MAC itself is a parameter:
    any function from secret and message to 32 bytes. */
module Signing {
  import opened Core
  import opened Text
  import opened Decimal
  import Hex

  type Digest = d: string | |d| == 32 && IsBytes(d) witness seq(32, i => '0')

  type Mac = (string, string) -> Digest

  const NANOS_PER_SECOND: int := 1_000_000_000

  /** Seconds between year 1 and 1970, which Go's time.Unix adds with int64 wrap-around. */
  const UNIX_TO_INTERNAL: int := 62_135_596_800

  /** Largest Unix time that time.Unix represents without wrapping. */
  const MAX_UNIX: int := MAX_INT64 - UNIX_TO_INTERNAL

  datatype Verdict = Valid | InvalidSignature | Expired

  function Canonical(pathB64: string, exp: int, disposition: string): string {
    pathB64 + "\n" + FormatInt(exp) + "\n" + disposition
  }

  function Sign(mac: Mac, secret: string, pathB64: string, exp: int, disposition: string): string {
    Hex.Encode(mac(secret, Canonical(pathB64, exp, disposition)))
  }

  /** now.After(time.Unix(exp, 0)), where `now` counts nanoseconds since 1970. */
  predicate After(now: int, exp: int) {
    var nowSeconds := now / NANOS_PER_SECOND + UNIX_TO_INTERNAL;
    var expSeconds := Wrap64(exp + UNIX_TO_INTERNAL);
    nowSeconds > expSeconds || (nowSeconds == expSeconds && now % NANOS_PER_SECOND > 0)
  }

  function Verify(mac: Mac, secret: string, pathB64: string, exp: int, disposition: string, sig: string, now: int)
    : Verdict
  {
    match Hex.Decode(sig)
    case None => InvalidSignature
    case Some(got) =>
      if Hex.Encode(got) != sig then InvalidSignature
      else if got != mac(secret, Canonical(pathB64, exp, disposition)) then InvalidSignature
      else if After(now, exp) then Expired
      else Valid
  }

  lemma AfterExact(now: int, exp: int)
    requires IsInt64(exp) && now >= 0
    ensures After(now, exp) <==> exp > MAX_UNIX || now > exp * NANOS_PER_SECOND
  {}

  /** Each tuple has exactly one accepted signature, byte for byte, and it is accepted
      up to and including the expiry second. Expiry is reported for matching signatures only. */
  lemma VerifyExact(
    mac: Mac, secret: string, pathB64: string, exp: int, disposition: string, sig: string, now: int)
    requires IsInt64(exp) && now >= 0
    ensures var genuine := sig == Sign(mac, secret, pathB64, exp, disposition);
            var live := exp <= MAX_UNIX && now <= exp * NANOS_PER_SECOND;
            var verdict := Verify(mac, secret, pathB64, exp, disposition, sig, now);
            && (verdict == Valid <==> genuine && live)
            && (verdict == Expired <==> genuine && !live)
            && (verdict == InvalidSignature <==> !genuine)
  {
    Hex.DecodeEncode(mac(secret, Canonical(pathB64, exp, disposition)));
    AfterExact(now, exp);
  }

  /** A signature made for one tuple passes for another exactly when the MAC has one value on
      the two texts, each under its own secret. */
  lemma SignatureCarriesOver(
    mac: Mac, secret: string, p: string, e: int, d: string, secret': string, p': string, e': int, d': string, now: int)
    ensures Verify(mac, secret', p', e', d', Sign(mac, secret, p, e, d), now) == InvalidSignature
            <==> mac(secret, Canonical(p, e, d)) != mac(secret', Canonical(p', e', d'))
  {
    Hex.DecodeEncode(mac(secret, Canonical(p, e, d)));
  }

  /** A MAC that tells one secret and text from all others. */
  function Separating(secret: string, text: string): Mac {
    (k, m) => if k == secret && m == text then seq(32, i => '1') else seq(32, i => '0')
  }

  lemma SeparatingSeparates(secret: string, text: string, secret': string, text': string)
    requires secret != secret' || text != text'
    ensures Separating(secret, text)(secret, text) != Separating(secret, text)(secret', text')
  {
    assert Separating(secret, text)(secret, text)[0] == '1';
    assert Separating(secret, text)(secret', text')[0] == '0';
  }

  /** Under this MAC a signature for the first tuple is never taken for the second. */
  ghost predicate Refuses(
    mac: Mac, secret: string, p: string, e: int, d: string, secret': string, p': string, e': int, d': string)
  {
    forall now :: Verify(mac, secret', p', e', d', Sign(mac, secret, p, e, d), now) == InvalidSignature
  }

  /** The signature authenticates path text, expiry, disposition and secret, all four: one for
      other values is refused at any time under some MAC. Dispositions have no newline. */
  lemma EveryPartIsSigned(
    secret: string, p: string, e: int, d: string, secret': string, p': string, e': int, d': string)
    requires '\n' !in d && '\n' !in d'
    ensures (exists mac: Mac :: Refuses(mac, secret, p, e, d, secret', p', e', d'))
            <==> (secret, p, e, d) != (secret', p', e', d')
  {
    var (text, text') := (Canonical(p, e, d), Canonical(p', e', d'));
    if (secret, p, e, d) != (secret', p', e', d') {
      if text == text' {
        CanonicalInjectiveOnPlainDispositions(p, e, d, p', e', d');
      }
      var mac := Separating(secret, text);
      SeparatingSeparates(secret, text, secret', text');
      forall now ensures Verify(mac, secret', p', e', d', Sign(mac, secret, p, e, d), now) == InvalidSignature {
        SignatureCarriesOver(mac, secret, p, e, d, secret', p', e', d', now);
      }
      assert Refuses(mac, secret, p, e, d, secret', p', e', d');
    } else if mac: Mac :| Refuses(mac, secret, p, e, d, secret', p', e', d') {
      SignatureCarriesOver(mac, secret, p, e, d, secret', p', e', d', 0);
      assert false;
    }
  }

  /** Non-canonical spellings of a valid signature are refused: a digit in upper case. */
  lemma UpperCaseRefused(
    mac: Mac, secret: string, pathB64: string, exp: int, disposition: string, sig: string, now: int)
    requires !Hex.IsLower(sig)
    ensures Verify(mac, secret, pathB64, exp, disposition, sig, now) == InvalidSignature
  {}

  lemma FirstSeparatorUnique(a: string, b: string, a': string, b': string)
    requires a + "\n" + b == a' + "\n" + b'
    requires '\n' !in a && '\n' !in a'
    ensures a == a' && b == b'
  {
    var s, s' := a + "\n" + b, a' + "\n" + b';
    assert s[|a|] == '\n' && s'[|a'|] == '\n';
    assert |a| == |a'|;
    assert a == s[..|a|] && a' == s'[..|a'|];
    assert b == s[|a| + 1..] && b' == s'[|a'| + 1..];
  }

  lemma LastSeparatorUnique(a: string, b: string, a': string, b': string)
    requires a + "\n" + b == a' + "\n" + b'
    requires '\n' !in b && '\n' !in b'
    ensures a == a' && b == b'
  {
    var s, s' := a + "\n" + b, a' + "\n" + b';
    assert s[|a|] == '\n' && s'[|a'|] == '\n';
    assert |a| == |a'|;
    assert a == s[..|a|] && a' == s'[..|a'|];
    assert b == s[|a| + 1..] && b' == s'[|a'| + 1..];
  }

  lemma CanonicalFromTheRight(p: string, e: int, d: string)
    ensures Canonical(p, e, d) == p + "\n" + (FormatInt(e) + "\n" + d)
  {
    var number := FormatInt(e);
    assert p + "\n" + number + "\n" + d == p + "\n" + (number + "\n" + d);
  }

  /** The signed string determines the tuple when the paths carry no newline. */
  lemma CanonicalInjectiveOnPlainPaths(p: string, e: int, d: string, p': string, e': int, d': string)
    requires Canonical(p, e, d) == Canonical(p', e', d')
    requires '\n' !in p && '\n' !in p'
    ensures p == p' && e == e' && d == d'
  {
    CanonicalFromTheRight(p, e, d);
    CanonicalFromTheRight(p', e', d');
    FirstSeparatorUnique(p, FormatInt(e) + "\n" + d, p', FormatInt(e') + "\n" + d');
    FirstSeparatorUnique(FormatInt(e), d, FormatInt(e'), d');
    FormatIntInjective(e, e');
  }

  /** It also determines the tuple for arbitrary paths when the dispositions carry no
      newline. The serve handler needs this form: its base64 decoder skips newlines, so
      the signed path text may contain them. */
  lemma CanonicalInjectiveOnPlainDispositions(p: string, e: int, d: string, p': string, e': int, d': string)
    requires Canonical(p, e, d) == Canonical(p', e', d')
    requires '\n' !in d && '\n' !in d'
    ensures p == p' && e == e' && d == d'
  {
    LastSeparatorUnique(p + "\n" + FormatInt(e), d, p' + "\n" + FormatInt(e'), d');
    LastSeparatorUnique(p, FormatInt(e), p', FormatInt(e'));
    FormatIntInjective(e, e');
  }

  /** One of the two conditions is needed: with newlines in both places two different
      tuples share a signed string. */
  lemma CanonicalAmbiguous()
    ensures Canonical("a", 1, "2\nb") == Canonical("a\n1", 2, "b")
  {}

  /** The line spells an int64 the way the signed string does. */
  ghost predicate IsNumber(line: string) {
    exists e :: IsInt64(e) && FormatInt(e) == line
  }

  /** Another tuple has the same signed string. */
  ghost predicate Ambiguous(p: string, e: int, d: string) {
    exists p', e', d' :: IsInt64(e') && (p' != p || e' != e || d' != d) && Canonical(p', e', d') == Canonical(p, e, d)
  }

  lemma NumberIsOneLine(e: int)
    ensures '\n' !in FormatInt(e) && Split(FormatInt(e), '\n') == [FormatInt(e)]
  {
    SplitWhole(FormatInt(e), '\n');
  }

  lemma CanonicalLines(p: string, e: int, d: string)
    ensures Split(Canonical(p, e, d), '\n') == Split(p, '\n') + [FormatInt(e)] + Split(d, '\n')
  {
    NumberIsOneLine(e);
    CanonicalFromTheRight(p, e, d);
    assert p + "\n" + (FormatInt(e) + "\n" + d) == p + ['\n'] + (FormatInt(e) + ['\n'] + d);
    SplitAtSeparator(p, FormatInt(e) + ['\n'] + d, '\n');
    SplitAtSeparator(FormatInt(e), d, '\n');
  }

  lemma SameLinesSameText(a: string, b: string)
    requires Split(a, '\n') == Split(b, '\n')
    ensures a == b
  {
    JoinSplit(a, '\n');
    JoinSplit(b, '\n');
  }

  /** A number in another line gives another reading of the same text. */
  lemma ReadAt(p: string, e: int, d: string, k: nat, n: int)
    requires IsInt64(n) && 0 < k < |Split(Canonical(p, e, d), '\n')| - 1
    requires Split(Canonical(p, e, d), '\n')[k] == FormatInt(n) && k != |Split(p, '\n')|
    ensures Ambiguous(p, e, d)
  {
    var lines := Split(Canonical(p, e, d), '\n');
    var (p', d') := (Join(lines[..k], '\n'), Join(lines[k + 1..], '\n'));
    SplitPartsLackSeparator(Canonical(p, e, d), '\n');
    SplitJoin(lines[..k], '\n');
    assert lines == lines[..k] + ([FormatInt(n)] + lines[k + 1..]);
    JoinAppend(lines[..k], [FormatInt(n)] + lines[k + 1..], '\n');
    JoinAppend([FormatInt(n)], lines[k + 1..], '\n');
    JoinSplit(Canonical(p, e, d), '\n');
    CanonicalFromTheRight(p', n, d');
    assert Canonical(p', n, d') == Canonical(p, e, d) && p' != p;
  }

  /** Two ways to pick one line out of the same lines. */
  lemma TwoCuts(a: seq<string>, x: string, b: seq<string>, a': seq<string>, x': string, b': seq<string>)
    requires a + [x] + b == a' + [x'] + b' && b' != []
    ensures |a'| < |a| ==> a[|a'|] == x'
    ensures |a'| > |a| ==> |a'| - |a| - 1 < |b| - 1 && b[|a'| - |a| - 1] == x'
    ensures |a'| == |a| ==> a == a' && x == x' && b == b'
  {
    var lines := a + [x] + b;
    assert lines[|a'|] == x';
    if |a'| == |a| {
      assert a == lines[..|a|] && a' == lines[..|a'|];
      assert b == lines[|a| + 1..] && b' == lines[|a'| + 1..];
    }
  }

  lemma OtherReading(p: string, e: int, d: string, p': string, e': int, d': string)
    requires IsInt64(e') && (p' != p || e' != e || d' != d) && Canonical(p', e', d') == Canonical(p, e, d)
    ensures (exists i | 0 < i < |Split(p, '\n')| :: IsNumber(Split(p, '\n')[i]))
            || (exists i | 0 <= i < |Split(d, '\n')| - 1 :: IsNumber(Split(d, '\n')[i]))
  {
    var (a, b, a', b') := (Split(p, '\n'), Split(d, '\n'), Split(p', '\n'), Split(d', '\n'));
    CanonicalLines(p, e, d);
    CanonicalLines(p', e', d');
    TwoCuts(a, FormatInt(e), b, a', FormatInt(e'), b');
    if |a'| < |a| {
      assert IsNumber(a[|a'|]);
    } else if |a'| > |a| {
      assert IsNumber(b[|a'| - |a| - 1]);
    } else {
      SameLinesSameText(p, p');
      SameLinesSameText(d, d');
      FormatIntInjective(e, e');
    }
  }

  /** Exactly when a tuple shares its signed string with another: some line of the path text
      after its first, or some line of the disposition before its last, is a number. */
  lemma CanonicalAmbiguousExactly(p: string, e: int, d: string)
    ensures Ambiguous(p, e, d)
            <==> (exists i | 0 < i < |Split(p, '\n')| :: IsNumber(Split(p, '\n')[i]))
                 || (exists i | 0 <= i < |Split(d, '\n')| - 1 :: IsNumber(Split(d, '\n')[i]))
  {
    var (a, b) := (Split(p, '\n'), Split(d, '\n'));
    CanonicalLines(p, e, d);
    if i :| 0 < i < |a| && IsNumber(a[i]) {
      var n :| IsInt64(n) && FormatInt(n) == a[i];
      ReadAt(p, e, d, i, n);
    } else if i :| 0 <= i < |b| - 1 && IsNumber(b[i]) {
      var n :| IsInt64(n) && FormatInt(n) == b[i];
      assert (a + [FormatInt(e)] + b)[|a| + 1 + i] == b[i];
      ReadAt(p, e, d, |a| + 1 + i, n);
    } else if Ambiguous(p, e, d) {
      var p', e', d' :| IsInt64(e') && (p' != p || e' != e || d' != d) && Canonical(p', e', d') == Canonical(p, e, d);
      OtherReading(p, e, d, p', e', d');
    }
  }
}

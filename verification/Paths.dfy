/** Lexical path handling of path/filepath on Unix, on strings and on component lists,
    and the string-level containment test of the file server. */
module Paths {
  import opened Text

  predicate IsAbs(p: string) {
    p != "" && p[0] == '/'
  }

  /** A name a directory entry can have. */
  predicate Proper(c: string) {
    c != "" && c != "." && c != ".." && '/' !in c
  }

  predicate AllProper(cs: seq<string>) {
    forall i | 0 <= i < |cs| :: Proper(cs[i])
  }

  predicate SlashFree(cs: seq<string>) {
    forall i | 0 <= i < |cs| :: '/' !in cs[i]
  }

  /** Every component preceded by a slash. */
  function Flat(cs: seq<string>): (s: string)
    ensures cs != [] ==> IsAbs(s)
  {
    if cs == [] then "" else "/" + cs[0] + Flat(cs[1..])
  }

  /** The clean absolute path with these components. */
  function Abs(cs: seq<string>): (s: string)
    ensures IsAbs(s)
  {
    if cs == [] then "/" else Flat(cs)
  }

  function Ups(k: nat): seq<string> {
    seq(k, i => "..")
  }

  /** The component loop of filepath.Clean: what is kept is a number of leading `..`
      followed by proper names. A rooted path keeps no `..`. */
  function Simplify(rooted: bool, raw: seq<string>, ups: nat, names: seq<string>): (r: (nat, seq<string>)) {
    if raw == [] then (ups, names)
    else if raw[0] == "" || raw[0] == "." then Simplify(rooted, raw[1..], ups, names)
    else if raw[0] == ".." then
      if names != [] then Simplify(rooted, raw[1..], ups, names[..|names| - 1])
      else Simplify(rooted, raw[1..], if rooted then ups else ups + 1, names)
    else Simplify(rooted, raw[1..], ups, names + [raw[0]])
  }

  /** Components of the cleaned form of an absolute path. */
  function Comps(p: string): seq<string>
    requires IsAbs(p)
  {
    Simplify(true, Split(p, '/'), 0, []).1
  }

  /** Cleaned form of a relative path: the number of `..` it starts with, and the rest. */
  function RelComps(p: string): (nat, seq<string>)
    requires !IsAbs(p)
  {
    Simplify(false, Split(p, '/'), 0, [])
  }

  function RelText(ups: nat, names: seq<string>): string {
    if Ups(ups) + names == [] then "." else Flat(Ups(ups) + names)[1..]
  }

  /** filepath.Clean. */
  function Clean(p: string): string {
    if IsAbs(p) then Abs(Comps(p)) else RelText(RelComps(p).0, RelComps(p).1)
  }

  /** filepath.Join of two non-empty paths. */
  function JoinPath(a: string, b: string): string {
    Clean(a + "/" + b)
  }

  predicate UnderRoot(path: string, root: string) {
    path == root || HasPrefix(path, root + "/")
  }

  /** Containment on components. The root directory contains only itself: see UnderRootExact. */
  predicate Within(path: seq<string>, root: seq<string>) {
    if root == [] then path == [] else root <= path
  }

  lemma {:induction false} SimplifyAppend(rooted: bool, a: seq<string>, b: seq<string>, ups: nat, names: seq<string>)
    ensures var mid := Simplify(rooted, a, ups, names);
            Simplify(rooted, a + b, ups, names) == Simplify(rooted, b, mid.0, mid.1)
    decreases |a|
  {
    if a == [] {
      assert a + b == b;
    } else {
      assert (a + b)[1..] == a[1..] + b;
      if a[0] == "" || a[0] == "." {
        SimplifyAppend(rooted, a[1..], b, ups, names);
      } else if a[0] == ".." {
        if names != [] {
          SimplifyAppend(rooted, a[1..], b, ups, names[..|names| - 1]);
        } else {
          SimplifyAppend(rooted, a[1..], b, if rooted then ups else ups + 1, names);
        }
      } else {
        SimplifyAppend(rooted, a[1..], b, ups, names + [a[0]]);
      }
    }
  }

  lemma {:induction false} SimplifyProper(rooted: bool, raw: seq<string>, ups: nat, names: seq<string>)
    requires SlashFree(raw) && AllProper(names)
    ensures AllProper(Simplify(rooted, raw, ups, names).1)
    ensures rooted ==> Simplify(rooted, raw, ups, names).0 == ups
    decreases |raw|
  {
    if raw != [] {
      if raw[0] == "" || raw[0] == "." {
        SimplifyProper(rooted, raw[1..], ups, names);
      } else if raw[0] == ".." {
        if names != [] {
          SimplifyProper(rooted, raw[1..], ups, names[..|names| - 1]);
        } else {
          SimplifyProper(rooted, raw[1..], if rooted then ups else ups + 1, names);
        }
      } else {
        SimplifyProper(rooted, raw[1..], ups, names + [raw[0]]);
      }
    }
  }

  lemma {:induction false} SimplifyNames(rooted: bool, cs: seq<string>, ups: nat, names: seq<string>)
    requires AllProper(cs)
    ensures Simplify(rooted, cs, ups, names) == (ups, names + cs)
    decreases |cs|
  {
    if cs == [] {
      assert names + cs == names;
    } else {
      SimplifyNames(rooted, cs[1..], ups, names + [cs[0]]);
      assert names + [cs[0]] + cs[1..] == names + cs;
    }
  }

  /** Climbing from an absolute directory stops at the root. */
  function Climb(names: seq<string>, k: nat): seq<string> {
    names[..if k <= |names| then |names| - k else 0]
  }

  lemma {:induction false} SimplifyUps(k: nat, names: seq<string>)
    ensures Simplify(true, Ups(k), 0, names) == (0, Climb(names, k))
    decreases k
  {
    if k == 0 {
      assert Climb(names, 0) == names;
    } else {
      assert Ups(k)[1..] == Ups(k - 1);
      if names == [] {
        SimplifyUps(k - 1, names);
      } else {
        var parent := names[..|names| - 1];
        SimplifyUps(k - 1, parent);
        assert Climb(parent, k - 1) == Climb(names, k);
      }
    }
  }

  lemma {:induction false} SplitFlat(cs: seq<string>)
    requires SlashFree(cs)
    ensures Split(Flat(cs), '/') == [""] + cs
  {
    if cs == [] {
      assert [""] + cs == [""];
    } else {
      var rest := cs[0] + Flat(cs[1..]);
      assert Flat(cs) == "/" + rest;
      assert Flat(cs)[1..] == rest;
      SplitAppend(cs[0], Flat(cs[1..]), '/');
      SplitFlat(cs[1..]);
      assert cs[0] + "" == cs[0];
      assert ([""] + cs[1..])[1..] == cs[1..];
      assert Split(rest, '/') == [cs[0]] + cs[1..];
    }
  }

  lemma SplitSlashFree(p: string)
    ensures SlashFree(Split(p, '/'))
  {}

  lemma CompsProper(p: string)
    requires IsAbs(p)
    ensures AllProper(Comps(p))
  {
    SplitSlashFree(p);
    SimplifyProper(true, Split(p, '/'), 0, []);
  }

  lemma SimplifySplitAbs(cs: seq<string>)
    requires AllProper(cs)
    ensures Simplify(true, Split(Abs(cs), '/'), 0, []) == (0, cs)
  {
    if cs == [] {
      assert Split("/", '/') == ["", ""];
      assert Simplify(true, ["", ""], 0, []) == Simplify(true, [""], 0, []);
    } else {
      SplitFlat(cs);
      SimplifyAppend(true, [""], cs, 0, []);
      assert Simplify(true, [""], 0, []) == Simplify(true, [], 0, []);
      SimplifyNames(true, cs, 0, []);
      assert [] + cs == cs;
    }
  }

  /** A component list and its clean absolute path determine each other. */
  lemma CompsAbs(cs: seq<string>)
    requires AllProper(cs)
    ensures Comps(Abs(cs)) == cs && Clean(Abs(cs)) == Abs(cs)
  {
    SimplifySplitAbs(cs);
  }

  /** One more component: nothing and a dot are dropped, two dots take the last name away, and
      anything else is a name. With Comps("/") == [] this is all there is to cleaning. */
  lemma OneMoreComponent(p: string, c: string)
    requires IsAbs(p) && '/' !in c
    ensures Comps("/") == [] && IsAbs(p + "/" + c)
    ensures Comps(p + "/" + c)
            == if c == "" || c == "." then Comps(p)
               else if c == ".." then if Comps(p) == [] then [] else Comps(p)[..|Comps(p)| - 1]
               else Comps(p) + [c]
  {
    SplitAtSeparator(p, c, '/');
    SplitWhole(c, '/');
    SplitSlashFree(p);
    SimplifyProper(true, Split(p, '/'), 0, []);
    SimplifyAppend(true, Split(p, '/'), [c], 0, []);
    SimplifySplitAbs([]);
    var (ups, names) := Simplify(true, Split(p, '/'), 0, []);
    assert [c][1..] == [];
  }

  /** The same for relative paths: two dots with no name to take away stay in front. */
  lemma OneMoreRelative(p: string, c: string)
    requires p != "" && !IsAbs(p) && '/' !in c
    ensures RelComps(".") == (0, []) && !IsAbs(p + "/" + c)
    ensures var (ups, names) := RelComps(p);
            RelComps(p + "/" + c)
            == if c == "" || c == "." then (ups, names)
               else if c == ".." then if names == [] then (ups + 1, []) else (ups, names[..|names| - 1])
               else (ups, names + [c])
  {
    SplitAtSeparator(p, c, '/');
    SplitWhole(c, '/');
    SplitWhole(".", '/');
    SimplifyAppend(false, Split(p, '/'), [c], 0, []);
    assert [c][1..] == [] && ["."][1..] == [];
  }

  lemma FlatInjective(a: seq<string>, b: seq<string>)
    requires SlashFree(a) && SlashFree(b) && Flat(a) == Flat(b)
    ensures a == b
  {
    SplitFlat(a);
    SplitFlat(b);
    assert a == ([""] + a)[1..] && b == ([""] + b)[1..];
  }

  lemma FlatOfExtension(p: seq<string>, r: seq<string>)
    requires r < p
    ensures HasPrefix(Flat(p), Flat(r) + "/")
  {}

  lemma SplitPrefixExtends(f: string, g: string, x: string, p: seq<string>, r: seq<string>)
    requires f == g + ['/'] + x
    requires Split(f, '/') == [""] + p && Split(g, '/') == [""] + r
    ensures r < p
  {
    SplitAtSeparator(g, x, '/');
    var tail := Split(x, '/');
    assert [""] + p == [""] + (r + tail);
    assert p == ([""] + p)[1..] == r + tail;
  }

  lemma FlatPrefixExtends(p: seq<string>, r: seq<string>)
    requires SlashFree(p) && SlashFree(r)
    requires HasPrefix(Flat(p), Flat(r) + "/")
    ensures r < p
  {
    var f, g := Flat(p), Flat(r);
    SplitFlat(r);
    SplitFlat(p);
    assert f == g + ['/'] + f[|g| + 1..];
    SplitPrefixExtends(f, g, f[|g| + 1..], p, r);
  }

  /** A string prefix ending in a slash is a component prefix. */
  lemma FlatPrefix(p: seq<string>, r: seq<string>)
    requires SlashFree(p) && SlashFree(r)
    ensures HasPrefix(Flat(p), Flat(r) + "/") <==> r < p
  {
    if HasPrefix(Flat(p), Flat(r) + "/") {
      FlatPrefixExtends(p, r);
    }
    if r < p {
      FlatOfExtension(p, r);
    }
  }

  /** The string test of the file server is containment on components, except that under
      root "/" it accepts nothing but "/" itself, because it looks for the prefix "//". */
  lemma UnderRootExact(p: seq<string>, r: seq<string>)
    requires AllProper(p) && AllProper(r)
    ensures UnderRoot(Abs(p), Abs(r)) <==> Within(p, r)
    ensures (UnderRoot(Abs(p), Abs(r)) <==> r <= p) <==> r != [] || p == []
  {
    if p == [] {
      if r != [] {
        assert |Flat(r)| >= 2;
      }
    } else if r == [] {
      assert Flat(p) == "/" + p[0] + Flat(p[1..]);
      assert Flat(p)[1] == p[0][0];
    } else {
      FlatPrefix(p, r);
      if Flat(p) == Flat(r) {
        FlatInjective(p, r);
      }
      assert r <= p <==> r == p || r < p;
    }
  }

  lemma CleanKeepsAbsolute(p: string)
    ensures IsAbs(Clean(p)) <==> IsAbs(p)
  {
    if !IsAbs(p) {
      SplitSlashFree(p);
      SimplifyProper(false, Split(p, '/'), 0, []);
      RelTextIsRelative(RelComps(p).0, RelComps(p).1);
    }
  }

  lemma RelTextIsRelative(ups: nat, names: seq<string>)
    requires AllProper(names)
    ensures !IsAbs(RelText(ups, names))
  {
    var cs := Ups(ups) + names;
    if cs != [] {
      assert cs[0] != "" && '/' !in cs[0];
      assert Flat(cs) == "/" + cs[0] + Flat(cs[1..]);
      assert RelText(ups, names)[0] == cs[0][0];
    }
  }

  lemma SplitRelText(ups: nat, names: seq<string>)
    requires AllProper(names)
    ensures var cs := Ups(ups) + names;
            Split(RelText(ups, names), '/') == if cs == [] then ["."] else cs
  {
    var (rel, cs) := (RelText(ups, names), Ups(ups) + names);
    if cs == [] {
      SplitWhole(".", '/');
    } else {
      SplitFlat(cs);
      assert Flat(cs) == "/" + rel;
      assert Split("/" + rel, '/') == [""] + Split(rel, '/');
      assert ([""] + cs)[1..] == cs && ([""] + Split(rel, '/'))[1..] == Split(rel, '/');
    }
  }

  /** Read against a rooted directory, the text of a relative path climbs, then descends. */
  lemma SimplifyRelText(root: seq<string>, ups: nat, names: seq<string>)
    requires AllProper(root) && AllProper(names)
    ensures Simplify(true, Split(RelText(ups, names), '/'), 0, root).1 == Climb(root, ups) + names
  {
    SplitRelText(ups, names);
    if Ups(ups) + names == [] {
      assert Simplify(true, ["."], 0, root) == Simplify(true, [], 0, root);
      assert Climb(root, ups) + names == root;
    } else {
      SimplifyAppend(true, Ups(ups), names, 0, root);
      SimplifyUps(ups, root);
      SimplifyNames(true, names, 0, Climb(root, ups));
    }
  }

  /** Joining a cleaned relative path to an absolute directory climbs, then descends. */
  lemma JoinComps(root: seq<string>, p: string)
    requires AllProper(root) && !IsAbs(p)
    ensures var (ups, names) := RelComps(p);
            var joined := Abs(root) + "/" + Clean(p);
            && AllProper(names)
            && IsAbs(joined)
            && Comps(joined) == Climb(root, ups) + names
  {
    var (ups, names) := RelComps(p);
    var rel := Clean(p);
    SplitSlashFree(p);
    SimplifyProper(false, Split(p, '/'), 0, []);
    SplitAtSeparator(Abs(root), rel, '/');
    SimplifySplitAbs(root);
    SimplifyAppend(true, Split(Abs(root), '/'), Split(rel, '/'), 0, []);
    assert Comps(Abs(root) + "/" + rel) == Simplify(true, Split(rel, '/'), 0, root).1;
    SimplifyRelText(root, ups, names);
  }
}

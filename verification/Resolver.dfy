/** Path fencing of the media file server (internal/serve/resolve.go). `Resolve` works on
    strings as the server does; `Fence` says on path components what it must answer. */
module Resolver {
  import opened Core
  import opened Text
  import opened Paths
  import opened FileSystem

  datatype Failure = Escape | Disk(error: FsError)

  /** The documented contract on roots, which the sidecar's configuration establishes. */
  ghost predicate ValidRoots(roots: seq<string>) {
    forall i | 0 <= i < |roots| :: IsAbs(roots[i])
  }

  function RootComps(roots: seq<string>): (r: seq<seq<string>>)
    requires ValidRoots(roots)
    ensures |r| == |roots|
    ensures forall i | 0 <= i < |roots| :: r[i] == Comps(roots[i])
  {
    seq(|roots|, i requires 0 <= i < |roots| => Comps(roots[i]))
  }

  /** Some root lexically contains the path. */
  ghost predicate Lexical(roots: seq<seq<string>>, path: seq<string>) {
    exists i | 0 <= i < |roots| :: Within(path, roots[i])
  }

  /** Some root that can be located contains the location. */
  ghost predicate Located(fs: Node, roots: seq<seq<string>>, there: seq<string>) {
    exists i | 0 <= i < |roots| :: Locate(fs, roots[i]).Ok? && Within(there, Locate(fs, roots[i]).value)
  }

  /** The fence: lexically inside a root, existing, and located inside a located root. */
  ghost function Fence(fs: Node, roots: seq<seq<string>>, path: seq<string>): Result<seq<string>, Failure> {
    if !Lexical(roots, path) then Err(Escape)
    else
      match Locate(fs, path)
      case Err(e) => Err(Disk(e))
      case Ok(there) => if Located(fs, roots, there) then Ok(there) else Err(Escape)
  }

  ghost function AsText(r: Result<seq<string>, Failure>): Result<string, Failure> {
    match r
    case Ok(there) => Ok(Abs(there))
    case Err(e) => Err(e)
  }

  /** What `Resolve` answers: an absolute path is fenced against all roots, a relative one
      is read from the first root and fenced against that root only. */
  ghost function Resolved(fs: Node, roots: seq<string>, p: string): Result<string, Failure>
    requires ValidRoots(roots)
  {
    if IsAbs(p) then AsText(Fence(fs, RootComps(roots), Comps(p)))
    else if roots == [] then Err(Escape)
    else
      var first := Comps(roots[0]);
      var (ups, names) := RelComps(p);
      AsText(Fence(fs, [first], Climb(first, ups) + names))
  }

  /** filepath.EvalSymlinks on an absolute path. */
  function EvalSymlinks(fs: Node, p: string): Result<string, FsError>
    requires IsAbs(p)
  {
    match Walk(fs, [], Split(p, '/'), MAX_LINKS)
    case Ok(there) => Ok(Abs(there))
    case Err(e) => Err(e)
  }

  lemma EvalSymlinksOfClean(fs: Node, path: seq<string>)
    requires AllProper(path)
    ensures EvalSymlinks(fs, Abs(path)) ==
            match Locate(fs, path) case Ok(there) => Ok(Abs(there)) case Err(e) => Err(e)
  {
    if path == [] {
      assert Split("/", '/') == ["", ""];
      assert [""][1..] == [];
      assert ["", ""][1..] == [""];
      assert Walk(fs, [], [""], MAX_LINKS) == Walk(fs, [], [], MAX_LINKS);
    } else {
      SplitFlat(path);
      WalkSkips(fs, path, MAX_LINKS);
    }
  }

  lemma RootTests(fs: Node, root: string, path: seq<string>)
    requires ValidTree(fs) && IsAbs(root) && AllProper(path)
    ensures UnderRoot(Abs(path), Clean(root)) <==> Within(path, Comps(root))
    ensures EvalSymlinks(fs, Clean(root)).Ok? <==> Locate(fs, Comps(root)).Ok?
    ensures Locate(fs, Comps(root)).Ok? ==>
              (UnderRoot(Abs(path), EvalSymlinks(fs, Clean(root)).value)
               <==> Within(path, Locate(fs, Comps(root)).value))
  {
    CompsProper(root);
    UnderRootExact(path, Comps(root));
    EvalSymlinksOfClean(fs, Comps(root));
    if Locate(fs, Comps(root)).Ok? {
      LocateIsIdempotent(fs, Comps(root));
      UnderRootExact(path, Locate(fs, Comps(root)).value);
    }
  }

  /** The first loop of serve.Resolve, up to its break. */
  method InSomeRoot(fs: Node, roots: seq<string>, clean: string, ghost path: seq<string>) returns (inRoot: bool)
    requires ValidTree(fs) && ValidRoots(roots) && AllProper(path) && clean == Abs(path)
    ensures inRoot == Lexical(RootComps(roots), path)
  {
    inRoot := false;
    var i := 0;
    while i < |roots| && !inRoot
      invariant 0 <= i <= |roots|
      invariant inRoot ==> Lexical(RootComps(roots), path)
      invariant !inRoot ==> forall j | 0 <= j < i :: !Within(path, Comps(roots[j]))
    {
      RootTests(fs, roots[i], path);
      if UnderRoot(clean, Clean(roots[i])) {
        assert Within(path, RootComps(roots)[i]);
        inRoot := true;
      }
      i := i + 1;
    }
  }

  /** The second loop of serve.Resolve, which passes over roots that cannot be resolved. */
  method InSomeResolvedRoot(fs: Node, roots: seq<string>, evaluated: string, ghost there: seq<string>) returns (found: bool)
    requires ValidTree(fs) && ValidRoots(roots) && AllProper(there) && evaluated == Abs(there)
    ensures found == Located(fs, RootComps(roots), there)
  {
    var i := 0;
    while i < |roots|
      invariant 0 <= i <= |roots|
      invariant forall j | 0 <= j < i ::
                  Locate(fs, Comps(roots[j])).Err? || !Within(there, Locate(fs, Comps(roots[j])).value)
    {
      RootTests(fs, roots[i], there);
      var resolvedRoot := EvalSymlinks(fs, Clean(roots[i]));
      if resolvedRoot.Ok? && UnderRoot(evaluated, resolvedRoot.value) {
        assert Within(there, Locate(fs, RootComps(roots)[i]).value);
        return true;
      }
      i := i + 1;
    }
    return false;
  }

  /** serve.Resolve: the string-level code agrees with the fence on components. */
  method Resolve(fs: Node, roots: seq<string>, p: string) returns (r: Result<string, Failure>)
    requires ValidTree(fs) && ValidRoots(roots)
    ensures r == Resolved(fs, roots, p)
    decreases !IsAbs(p)
  {
    var clean := Clean(p);
    CleanKeepsAbsolute(p);
    if !IsAbs(clean) {
      if |roots| == 0 {
        return Err(Escape);
      }
      var joined := JoinPath(Clean(roots[0]), clean);
      RelativeJoin(roots[0], p);
      r := Resolve(fs, [roots[0]], joined);
      assert RootComps([roots[0]]) == [Comps(roots[0])];
      return;
    }
    ghost var path := Comps(p);
    CompsProper(p);
    var inRoot := InSomeRoot(fs, roots, clean, path);
    if !inRoot {
      return Err(Escape);
    }
    EvalSymlinksOfClean(fs, path);
    var evaluated := EvalSymlinks(fs, clean);
    if evaluated.Err? {
      return Err(Disk(evaluated.error));
    }
    LocateIsIdempotent(fs, path);
    var found := InSomeResolvedRoot(fs, roots, evaluated.value, Locate(fs, path).value);
    if !found {
      return Err(Escape);
    }
    return Ok(evaluated.value);
  }

  lemma RelativeJoin(root: string, p: string)
    requires IsAbs(root) && !IsAbs(p)
    ensures var joined := JoinPath(Clean(root), Clean(p));
            var (ups, names) := RelComps(p);
            IsAbs(joined) && Comps(joined) == Climb(Comps(root), ups) + names
  {
    var (ups, names) := RelComps(p);
    CompsProper(root);
    JoinComps(Comps(root), p);
    assert AllProper(Climb(Comps(root), ups) + names);
    CompsAbs(Climb(Comps(root), ups) + names);
  }

  /** Containment and completeness: an absolute path resolves exactly when it is lexically
      in a root, exists, and its link-free location lies in a located root; the result has
      no link in it and resolves to itself. Within is plain prefix for roots other than "/". */
  lemma ResolvedExact(fs: Node, roots: seq<string>, p: string, q: string)
    requires ValidTree(fs) && ValidRoots(roots) && IsAbs(p)
    ensures Resolved(fs, roots, p) == Ok(q) <==>
            && Lexical(RootComps(roots), Comps(p))
            && Locate(fs, Comps(p)).Ok?
            && q == Abs(Locate(fs, Comps(p)).value)
            && Located(fs, RootComps(roots), Locate(fs, Comps(p)).value)
    ensures Resolved(fs, roots, p) == Ok(q) ==>
            && IsAbs(q) && Clean(q) == q
            && IsReal(fs, Comps(q))
            && Locate(fs, Comps(q)) == Ok(Comps(q))
            && EvalSymlinks(fs, q) == Ok(q)
  {
    if Locate(fs, Comps(p)).Ok? {
      var there := Locate(fs, Comps(p)).value;
      LocateIsIdempotent(fs, Comps(p));
      CompsAbs(there);
      EvalSymlinksOfClean(fs, there);
    }
  }

  /** And which error otherwise: an escape before the disk is touched or after links are
      followed, and the disk's own error between the two. */
  lemma RefusedExact(fs: Node, roots: seq<string>, p: string, e: FsError)
    requires ValidTree(fs) && ValidRoots(roots) && IsAbs(p)
    ensures Resolved(fs, roots, p) == Err(Escape)
            <==> || !(exists i | 0 <= i < |roots| :: Within(Comps(p), Comps(roots[i])))
                 || (Locate(fs, Comps(p)).Ok?
                     && forall i | 0 <= i < |roots| && Locate(fs, Comps(roots[i])).Ok? ::
                          !Within(Locate(fs, Comps(p)).value, Locate(fs, Comps(roots[i])).value))
    ensures Resolved(fs, roots, p) == Err(Disk(e))
            <==> (exists i | 0 <= i < |roots| :: Within(Comps(p), Comps(roots[i]))) && Locate(fs, Comps(p)) == Err(e)
  {
    LexicalExact(roots, Comps(p));
    if Locate(fs, Comps(p)).Ok? {
      LocatedExact(fs, roots, Locate(fs, Comps(p)).value);
    }
  }

  lemma LexicalExact(roots: seq<string>, path: seq<string>)
    requires ValidRoots(roots)
    ensures Lexical(RootComps(roots), path) <==> exists i | 0 <= i < |roots| :: Within(path, Comps(roots[i]))
  {
    if i :| 0 <= i < |roots| && Within(path, Comps(roots[i])) {
      assert Within(path, RootComps(roots)[i]);
    }
  }

  lemma LocatedExact(fs: Node, roots: seq<string>, there: seq<string>)
    requires ValidRoots(roots)
    ensures Located(fs, RootComps(roots), there)
            <==> exists i | 0 <= i < |roots| ::
                   Locate(fs, Comps(roots[i])).Ok? && Within(there, Locate(fs, Comps(roots[i])).value)
  {
    if i :| 0 <= i < |roots| && Locate(fs, Comps(roots[i])).Ok? && Within(there, Locate(fs, Comps(roots[i])).value) {
      assert Locate(fs, RootComps(roots)[i]).Ok? && Within(there, Locate(fs, RootComps(roots)[i]).value);
    }
  }

  /** A relative path is the first root joined with it, fenced against that root alone. */
  lemma RelativeIsJoined(fs: Node, roots: seq<string>, p: string)
    requires ValidRoots(roots) && !IsAbs(p)
    ensures roots == [] ==> Resolved(fs, roots, p) == Err(Escape)
    ensures roots != [] ==>
              Resolved(fs, roots, p) == Resolved(fs, [roots[0]], JoinPath(Clean(roots[0]), Clean(p)))
  {
    if roots != [] {
      RelativeJoin(roots[0], p);
      assert RootComps([roots[0]]) == [Comps(roots[0])];
    }
  }

  lemma PrefixAfterClimb(first: seq<string>, left: seq<string>, names: seq<string>)
    requires left <= first
    ensures first <= left + names <==> first[|left|..] <= names
  {}

  /** Where a relative path lands, and when it passes the lexical check: it must not climb,
      or it must come back down through the very directories it climbed out of. Under root
      "/" only a path that lands on the root itself passes. */
  lemma RelativeLexical(root: string, p: string)
    requires IsAbs(root) && !IsAbs(p)
    ensures var first := Comps(root);
            var (ups, names) := RelComps(p);
            var left := Climb(first, ups);
            Lexical([first], left + names)
            <==> if first == [] then names == [] else ups == 0 || first[|left|..] <= names
  {
    var first := Comps(root);
    var (ups, names) := RelComps(p);
    var left := Climb(first, ups);
    PrefixAfterClimb(first, left, names);
    assert [first][0] == first;
  }

  /** A relative path never reaches past the first root, whatever the other roots are. */
  lemma RelativeStaysInFirstRoot(fs: Node, roots: seq<string>, p: string)
    requires ValidTree(fs) && ValidRoots(roots) && !IsAbs(p) && Resolved(fs, roots, p).Ok?
    ensures roots != [] && Locate(fs, Comps(roots[0])).Ok?
    ensures var q := Resolved(fs, roots, p).value;
            && IsAbs(q)
            && Within(Comps(q), Locate(fs, Comps(roots[0])).value)
            && Resolved(fs, roots, p) == Resolved(fs, [roots[0]], JoinPath(Clean(roots[0]), Clean(p)))
  {
    var first := Comps(roots[0]);
    var (ups, names) := RelComps(p);
    var path := Climb(first, ups) + names;
    LocateIsIdempotent(fs, path);
    CompsAbs(Locate(fs, path).value);
    RelativeJoin(roots[0], p);
    assert RootComps([roots[0]]) == [first];
    assert Located(fs, [first], Locate(fs, path).value);
    var i :| 0 <= i < |[first]| && Locate(fs, [first][i]).Ok?
             && Within(Locate(fs, path).value, Locate(fs, [first][i]).value);
    assert [first][i] == first;
  }

  /** The argument of the n-th recursive call when the first root is `root`. */
  function RecursionArgument(root: string, p: string, n: nat): string {
    if n == 0 then p else JoinPath(Clean(root), Clean(RecursionArgument(root, p, n - 1)))
  }

  /** The recursion on relative input ends after one step when the first root is absolute
      and never ends when it is relative: the argument stays relative for ever. */
  lemma {:induction false} RecursionEndsIffRootAbsolute(root: string, p: string, n: nat)
    requires !IsAbs(p) && n > 0
    ensures IsAbs(Clean(RecursionArgument(root, p, n))) <==> IsAbs(root)
    decreases n
  {
    var before := RecursionArgument(root, p, n - 1);
    var joined := Clean(root) + "/" + Clean(before);
    CleanKeepsAbsolute(root);
    if n > 1 {
      RecursionEndsIffRootAbsolute(root, p, n - 1);
    }
    CleanKeepsAbsolute(joined);
    CleanKeepsAbsolute(Clean(joined));
    CleanNonEmpty(root);
    assert joined[0] == Clean(root)[0];
  }

  lemma CleanNonEmpty(p: string)
    ensures Clean(p) != ""
  {
    if !IsAbs(p) {
      var (ups, names) := RelComps(p);
      SplitSlashFree(p);
      SimplifyProper(false, Split(p, '/'), 0, []);
      var cs := Ups(ups) + names;
      if cs != [] {
        assert cs[0] != "";
        assert Flat(cs) == "/" + cs[0] + Flat(cs[1..]);
      }
    }
  }

  /** Resolving a resolved path again succeeds with the same result exactly when some
      cleaned root lexically contains it; otherwise it is reported as an escape. */
  lemma ResolveAgain(fs: Node, roots: seq<string>, p: string)
    requires ValidTree(fs) && ValidRoots(roots) && Resolved(fs, roots, p).Ok?
    ensures var q := Resolved(fs, roots, p).value;
            && IsAbs(q)
            && Resolved(fs, roots, q) == if Lexical(RootComps(roots), Comps(q)) then Ok(q) else Err(Escape)
  {
    var q := Resolved(fs, roots, p).value;
    var path := if IsAbs(p) then Comps(p) else Climb(Comps(roots[0]), RelComps(p).0) + RelComps(p).1;
    var there := Locate(fs, path).value;
    LocateIsIdempotent(fs, path);
    CompsAbs(there);
    if !IsAbs(p) {
      RelativeStaysInFirstRoot(fs, roots, p);
      assert RootComps(roots)[0] == Comps(roots[0]);
    }
    assert Located(fs, RootComps(roots), there);
  }

  /** A root whose cleaned form contains no link. */
  ghost predicate CanonicalRoot(fs: Node, root: seq<string>) {
    Locate(fs, root) == Ok(root)
  }

  /** With canonical roots, every resolved path resolves again to itself. */
  lemma CanonicalRootsSuffice(fs: Node, roots: seq<string>, p: string)
    requires ValidTree(fs) && ValidRoots(roots) && Resolved(fs, roots, p).Ok?
    requires forall i | 0 <= i < |roots| :: CanonicalRoot(fs, Comps(roots[i]))
    ensures Resolved(fs, roots, Resolved(fs, roots, p).value) == Resolved(fs, roots, p)
  {
    var q := Resolved(fs, roots, p).value;
    ResolveAgain(fs, roots, p);
    var path := if IsAbs(p) then Comps(p) else Climb(Comps(roots[0]), RelComps(p).0) + RelComps(p).1;
    LocateIsIdempotent(fs, path);
    CompsAbs(Locate(fs, path).value);
    if IsAbs(p) {
      var i :| 0 <= i < |roots| && Within(Comps(q), Locate(fs, RootComps(roots)[i]).value);
      assert Within(Comps(q), RootComps(roots)[i]);
    } else {
      RelativeStaysInFirstRoot(fs, roots, p);
      assert Within(Comps(q), RootComps(roots)[0]);
    }
  }

  /** `a` is a top-level link to the top-level directory `b`, which holds `rest`. */
  ghost predicate LinkedRoot(fs: Node, a: string, b: string, rest: seq<string>) {
    && ValidTree(fs) && Proper(a) && Proper(b) && a != b
    && Lookup(fs, [a]) == Some(Link(Abs([b])))
    && IsDirectory(fs, [b]) && IsReal(fs, [b] + rest) && AllProper(rest)
  }

  lemma LocateThroughLink(fs: Node, a: string, b: string, rest: seq<string>)
    requires LinkedRoot(fs, a, b, rest)
    ensures Locate(fs, [a] + rest) == Ok([b] + rest)
  {
    assert Lookup(fs, []) == Some(fs) && [] + [a] == [a];
    AbsoluteLinkLeads(fs, [], a, [b], rest);
  }

  /** Under a root reached through a link every file resolves, and resolving the answer
      again is an escape: the lexical check compares it with the unresolved root. */
  lemma LinkedRootRefusesItsOwnAnswers(fs: Node, a: string, b: string, rest: seq<string>)
    requires LinkedRoot(fs, a, b, rest)
    ensures Resolved(fs, [Abs([a])], Abs([a] + rest)) == Ok(Abs([b] + rest))
    ensures Resolved(fs, [Abs([a])], Abs([b] + rest)) == Err(Escape)
  {
    var roots := [Abs([a])];
    CompsAbs([a]);
    CompsAbs([a] + rest);
    CompsAbs([b] + rest);
    assert RootComps(roots) == [[a]];
    LocateThroughLink(fs, a, b, rest);
    assert [b] + [] == [b] && [a] + [] == [a];
    LocateThroughLink(fs, a, b, []);
    assert [[a]][0] == [a];
    assert Within([a] + rest, [[a]][0]);
    assert Within([b] + rest, Locate(fs, [[a]][0]).value);
    assert ([b] + rest)[..1] == [b];
    assert !Within([b] + rest, [a]);
  }

  /** A path through a link resolves to where the link leads, as long as that lies in a root that
      can be located, and is an escape otherwise. */
  lemma LinkIsFenced(fs: Node, roots: seq<string>, path: seq<string>, there: seq<string>)
    requires ValidTree(fs) && ValidRoots(roots) && AllProper(path) && Locate(fs, path) == Ok(there)
    requires Lexical(RootComps(roots), path)
    ensures Resolved(fs, roots, Abs(path))
            == if Located(fs, RootComps(roots), there) then Ok(Abs(there)) else Err(Escape)
  {
    CompsAbs(path);
  }

  lemma LinkedPathProper(parent: seq<string>, name: string, rest: seq<string>)
    requires AllProper(parent + [name]) && AllProper(rest)
    ensures AllProper(parent + [name] + rest)
  {}

  /** Links whose targets stay inside a root are fine: with canonical roots a file behind a
      relative link, read from the directory that holds it, resolves if and only if its place
      lies in a root. */
  lemma RelativeLinkInRoot(
    fs: Node, roots: seq<string>, parent: seq<string>, name: string, ups: nat, names: seq<string>, rest: seq<string>)
    requires ValidRoots(roots) && forall i | 0 <= i < |roots| :: CanonicalRoot(fs, Comps(roots[i]))
    requires HoldsLink(fs, parent, name, RelText(ups, names)) && AllProper(names) && AllProper(rest)
    requires IsReal(fs, Climb(parent, ups) + (names + rest))
    requires Lexical(RootComps(roots), parent + [name] + rest)
    ensures var there := Climb(parent, ups) + (names + rest);
            Resolved(fs, roots, Abs(parent + [name] + rest))
            == if Lexical(RootComps(roots), there) then Ok(Abs(there)) else Err(Escape)
  {
    var there := Climb(parent, ups) + (names + rest);
    LinkedPathProper(parent, name, rest);
    RelativeLinkLeads(fs, parent, name, ups, names, rest);
    LinkIsFenced(fs, roots, parent + [name] + rest, there);
    CanonicalLocated(fs, roots, there);
  }

  /** The same for an absolute link, read from the root of the file system. */
  lemma AbsoluteLinkInRoot(
    fs: Node, roots: seq<string>, parent: seq<string>, name: string, names: seq<string>, rest: seq<string>)
    requires ValidRoots(roots) && forall i | 0 <= i < |roots| :: CanonicalRoot(fs, Comps(roots[i]))
    requires HoldsLink(fs, parent, name, Abs(names)) && AllProper(names) && AllProper(rest)
    requires IsReal(fs, names + rest) && Lexical(RootComps(roots), parent + [name] + rest)
    ensures Resolved(fs, roots, Abs(parent + [name] + rest))
            == if Lexical(RootComps(roots), names + rest) then Ok(Abs(names + rest)) else Err(Escape)
  {
    LinkedPathProper(parent, name, rest);
    AbsoluteLinkLeads(fs, parent, name, names, rest);
    LinkIsFenced(fs, roots, parent + [name] + rest, names + rest);
    CanonicalLocated(fs, roots, names + rest);
  }

  lemma CanonicalLocated(fs: Node, roots: seq<string>, there: seq<string>)
    requires ValidRoots(roots) && forall i | 0 <= i < |roots| :: CanonicalRoot(fs, Comps(roots[i]))
    ensures Located(fs, RootComps(roots), there) <==> Lexical(RootComps(roots), there)
  {
    LexicalExact(roots, there);
    LocatedExact(fs, roots, there);
  }

  /** One file behind a link: /link -> /real, with the file /real/f. */
  function LinkedTree(): Node {
    Dir(map["link" := Link(Abs(["real"])), "real" := Dir(map["f" := File("x")])])
  }

  lemma LinkedTreePaths(path: seq<string>)
    requires Lookup(LinkedTree(), path).Some?
    ensures path == [] || path == ["link"] || path == ["real"] || path == ["real", "f"]
  {
    if path != [] {
      var tail := path[1..];
      assert path == [path[0]] + tail;
      if path[0] == "real" && tail != [] {
        assert tail == [tail[0]] + tail[1..];
        assert Lookup(LinkedTree(), path) == Lookup(Dir(map["f" := File("x")]), tail) == Lookup(File("x"), tail[1..]);
      }
    }
  }

  lemma LinkedTreeNodes()
    ensures var fs := LinkedTree();
            && Lookup(fs, ["link"]) == Some(Link(Abs(["real"])))
            && Lookup(fs, ["real"]) == Some(Dir(map["f" := File("x")]))
            && Lookup(fs, ["real"] + ["f"]) == Some(File("x"))
  {
    var fs := LinkedTree();
    assert Lookup(fs, ["link"]) == Lookup(fs.entries["link"], []);
    assert Lookup(fs, ["real"]) == Lookup(fs.entries["real"], []);
    assert ["real"] + ["f"] == ["real", "f"] && ["real", "f"][1..] == ["f"];
    assert Lookup(fs, ["real", "f"]) == Lookup(fs.entries["real"], ["f"]) == Lookup(File("x"), []);
  }

  /** Such a tree exists. */
  lemma LinkedRootExists()
    ensures LinkedRoot(LinkedTree(), "link", "real", ["f"])
  {
    LinkedTreeNodes();
    forall path | Lookup(LinkedTree(), path).Some? ensures AllProper(path) {
      LinkedTreePaths(path);
    }
  }
}

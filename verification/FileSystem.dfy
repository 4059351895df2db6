/** A file system as a finite tree, and the link-budgeted walk of filepath.EvalSymlinks. */
module FileSystem {
  import opened Core
  import opened Text
  import opened Paths

  datatype Node =
    | File(content: string)
    | Dir(entries: map<string, Node>)
    | Link(target: string)

  datatype FsError = NotExist | NotDirectory | TooManyLinks

  /** EvalSymlinks follows at most this many links. */
  const MAX_LINKS: nat := 255

  /** The node reached through directories only, never through a link. */
  function Lookup(n: Node, path: seq<string>): Option<Node> {
    if path == [] then Some(n)
    else if n.Dir? && path[0] in n.entries then Lookup(n.entries[path[0]], path[1..])
    else None
  }

  /** The root is a directory and every entry has a name a path component can spell. */
  ghost predicate ValidTree(fs: Node) {
    fs.Dir? && forall path :: Lookup(fs, path).Some? ==> AllProper(path)
  }

  /** `path` exists and no component of it, the last included, is a link. */
  predicate IsReal(fs: Node, path: seq<string>) {
    Lookup(fs, path).Some? && !Lookup(fs, path).value.Link?
  }

  predicate IsDirectory(fs: Node, path: seq<string>) {
    Lookup(fs, path).Some? && Lookup(fs, path).value.Dir?
  }

  /** `dest` is the link-free directory reached so far and `rest` what is left to walk. A
      link is replaced by its target; after anything but a directory nothing may follow. */
  function Walk(fs: Node, dest: seq<string>, rest: seq<string>, budget: nat): Result<seq<string>, FsError>
    decreases budget, |rest|
  {
    if rest == [] then Ok(dest)
    else
      var (name, more) := (rest[0], rest[1..]);
      if name == "" || name == "." then Walk(fs, dest, more, budget)
      else if name == ".." then Walk(fs, Climb(dest, 1), more, budget)
      else
        match Lookup(fs, dest + [name])
        case None => Err(NotExist)
        case Some(File(_)) => if more == [] then Ok(dest + [name]) else Err(NotDirectory)
        case Some(Dir(_)) => Walk(fs, dest + [name], more, budget)
        case Some(Link(target)) =>
          if budget == 0 then Err(TooManyLinks)
          else Walk(fs, if IsAbs(target) then [] else dest, Split(target, '/') + more, budget - 1)
  }

  function Locate(fs: Node, path: seq<string>): Result<seq<string>, FsError> {
    Walk(fs, [], path, MAX_LINKS)
  }

  lemma {:induction false} LookupAppend(n: Node, a: seq<string>, b: seq<string>)
    ensures Lookup(n, a + b) == match Lookup(n, a) case None => None case Some(m) => Lookup(m, b)
  {
    if a == [] {
      assert a + b == b;
    } else if n.Dir? && a[0] in n.entries {
      assert (a + b)[1..] == a[1..] + b;
      LookupAppend(n.entries[a[0]], a[1..], b);
    }
  }

  lemma ParentIsDirectory(fs: Node, path: seq<string>)
    requires fs.Dir? && IsDirectory(fs, path)
    ensures IsDirectory(fs, Climb(path, 1))
  {
    if path != [] {
      var parent := Climb(path, 1);
      assert path == parent + [path[|path| - 1]];
      LookupAppend(fs, parent, [path[|path| - 1]]);
    }
  }

  /** Whatever the walk returns exists, is free of links and is spelled with proper names. */
  lemma {:induction false} WalkReachesRealPath(fs: Node, dest: seq<string>, rest: seq<string>, budget: nat)
    requires ValidTree(fs)
    requires if rest == [] then IsReal(fs, dest) else IsDirectory(fs, dest)
    ensures var r := Walk(fs, dest, rest, budget);
            r.Ok? ==> IsReal(fs, r.value) && AllProper(r.value)
    decreases budget, |rest|
  {
    if rest != [] {
      var (name, more) := (rest[0], rest[1..]);
      if name == "" || name == "." {
        WalkReachesRealPath(fs, dest, more, budget);
      } else if name == ".." {
        ParentIsDirectory(fs, dest);
        WalkReachesRealPath(fs, Climb(dest, 1), more, budget);
      } else {
        match Lookup(fs, dest + [name])
        case None =>
        case Some(File(_)) =>
        case Some(Dir(_)) => WalkReachesRealPath(fs, dest + [name], more, budget);
        case Some(Link(target)) =>
          if budget > 0 {
            WalkReachesRealPath(fs, if IsAbs(target) then [] else dest, Split(target, '/') + more, budget - 1);
          }
      }
    }
  }

  /** A link-free path is walked to itself. */
  lemma {:induction false} WalkKeepsRealPath(fs: Node, dest: seq<string>, rest: seq<string>, budget: nat)
    requires AllProper(rest) && IsReal(fs, dest + rest)
    ensures Walk(fs, dest, rest, budget) == Ok(dest + rest)
    decreases |rest|
  {
    if rest == [] {
      assert dest + rest == dest;
    } else {
      var next := dest + [rest[0]];
      assert next + rest[1..] == dest + rest;
      LookupAppend(fs, next, rest[1..]);
      if rest[1..] == [] {
        assert dest + rest == next;
        assert Walk(fs, next, [], budget) == Ok(next);
      } else {
        WalkKeepsRealPath(fs, next, rest[1..], budget);
      }
    }
  }

  // ------------------------------------------------------------------ what the walk means

  /** Pathname resolution one component at a time: where `path` leads from the directory `dest`,
      and how many more links may be followed. Only a directory can be gone on from. */
  function Lead(fs: Node, dest: seq<string>, path: seq<string>, budget: nat): (r: Result<(seq<string>, nat), FsError>)
    ensures r.Ok? ==> r.value.1 <= budget
    decreases budget, |path|
  {
    if path == [] then Ok((dest, budget))
    else
      match LeadOne(fs, dest, path[0], budget)
      case Err(e) => Err(e)
      case Ok((there, left)) =>
        if path[1..] != [] && !IsDirectory(fs, there) then Err(NotDirectory) else Lead(fs, there, path[1..], left)
  }

  /** A link leads where its target leads, from the root or from the directory that holds it. */
  function LeadOne(fs: Node, dest: seq<string>, name: string, budget: nat): (r: Result<(seq<string>, nat), FsError>)
    ensures r.Ok? ==> r.value.1 <= budget
    decreases budget, 0
  {
    if name == "" || name == "." then Ok((dest, budget))
    else if name == ".." then Ok((Climb(dest, 1), budget))
    else
      match Lookup(fs, dest + [name])
      case None => Err(NotExist)
      case Some(Link(target)) =>
        if budget == 0 then Err(TooManyLinks)
        else Lead(fs, if IsAbs(target) then [] else dest, Split(target, '/'), budget - 1)
      case Some(_) => Ok((dest + [name], budget))
  }

  /** The walk that splices link targets into the text still to be read resolves `a` first. */
  lemma {:induction false} WalkLeads(fs: Node, dest: seq<string>, a: seq<string>, b: seq<string>, budget: nat)
    requires fs.Dir? && IsDirectory(fs, dest)
    ensures Walk(fs, dest, a + b, budget)
            == match Lead(fs, dest, a, budget)
               case Err(e) => Err(e)
               case Ok((there, left)) =>
                 if b == [] then Ok(there)
                 else if IsDirectory(fs, there) then Walk(fs, there, b, left) else Err(NotDirectory)
    decreases budget, |a|
  {
    if a == [] {
      assert a + b == b;
    } else {
      var (name, more) := (a[0], a[1..]);
      assert (a + b)[0] == name && (a + b)[1..] == more + b;
      if name == "" || name == "." {
        WalkLeads(fs, dest, more, b, budget);
      } else if name == ".." {
        ParentIsDirectory(fs, dest);
        WalkLeads(fs, Climb(dest, 1), more, b, budget);
      } else {
        match Lookup(fs, dest + [name])
        case None =>
        case Some(File(_)) =>
        case Some(Dir(_)) => WalkLeads(fs, dest + [name], more, b, budget);
        case Some(Link(target)) =>
          if budget > 0 {
            LinkLeads(fs, dest, target, more, b, budget - 1);
          }
      }
    }
  }

  lemma {:induction false} LinkLeads(
    fs: Node, dest: seq<string>, target: string, more: seq<string>, b: seq<string>, budget: nat)
    requires fs.Dir? && IsDirectory(fs, dest)
    ensures var start := if IsAbs(target) then [] else dest;
            Walk(fs, start, Split(target, '/') + (more + b), budget)
            == match Lead(fs, start, Split(target, '/'), budget)
               case Err(e) => Err(e)
               case Ok((mid, left)) =>
                 if more + b != [] && !IsDirectory(fs, mid) then Err(NotDirectory)
                 else match Lead(fs, mid, more, left)
                      case Err(e) => Err(e)
                      case Ok((there, last)) =>
                        if b == [] then Ok(there)
                        else if IsDirectory(fs, there) then Walk(fs, there, b, last) else Err(NotDirectory)
    decreases budget, |Split(target, '/')| + |more| + 1
  {
    var start := if IsAbs(target) then [] else dest;
    WalkLeads(fs, start, Split(target, '/'), more + b, budget);
    match Lead(fs, start, Split(target, '/'), budget)
    case Err(_) =>
    case Ok((mid, left)) =>
      if more + b != [] && IsDirectory(fs, mid) {
        WalkLeads(fs, mid, more, b, left);
      }
  }

  /** The walk over spliced text is pathname resolution, errors and link budget included. */
  lemma WalkIsResolution(fs: Node, path: seq<string>)
    requires fs.Dir?
    ensures Locate(fs, path)
            == match Lead(fs, [], path, MAX_LINKS) case Ok((there, _)) => Ok(there) case Err(e) => Err(e)
  {
    assert path + [] == path && Lookup(fs, []) == Some(fs);
    WalkLeads(fs, [], path, [], MAX_LINKS);
  }

  /** More budget changes nothing but refusals for too many links, and is left over: what is
      used up is the number of links on the way. */
  lemma {:induction false} BudgetOnlyLimits(fs: Node, dest: seq<string>, path: seq<string>, budget: nat, more: nat)
    requires Lead(fs, dest, path, budget) != Err(TooManyLinks)
    ensures Lead(fs, dest, path, budget + more)
            == match Lead(fs, dest, path, budget)
               case Ok((there, left)) => Ok((there, left + more)) case Err(e) => Err(e)
    decreases budget, |path|
  {
    if path != [] {
      BudgetOnlyLimitsOne(fs, dest, path[0], budget, more);
      match LeadOne(fs, dest, path[0], budget)
      case Err(_) =>
      case Ok((there, left)) =>
        if path[1..] == [] || IsDirectory(fs, there) {
          BudgetOnlyLimits(fs, there, path[1..], left, more);
        }
    }
  }

  lemma {:induction false} BudgetOnlyLimitsOne(fs: Node, dest: seq<string>, name: string, budget: nat, more: nat)
    requires LeadOne(fs, dest, name, budget) != Err(TooManyLinks)
    ensures LeadOne(fs, dest, name, budget + more)
            == match LeadOne(fs, dest, name, budget)
               case Ok((there, left)) => Ok((there, left + more)) case Err(e) => Err(e)
    decreases budget, 0
  {
    if name !in {"", ".", ".."} {
      match Lookup(fs, dest + [name])
      case Some(Link(target)) =>
        BudgetOnlyLimits(fs, if IsAbs(target) then [] else dest, Split(target, '/'), budget - 1, more);
      case _ =>
    }
  }

  lemma {:induction false} WalkDescends(fs: Node, dest: seq<string>, a: seq<string>, b: seq<string>, budget: nat)
    requires AllProper(a) && IsDirectory(fs, dest + a)
    ensures Walk(fs, dest, a + b, budget) == Walk(fs, dest + a, b, budget)
    decreases |a|
  {
    if a == [] {
      assert dest + a == dest && a + b == b;
    } else {
      var next := dest + [a[0]];
      assert next + a[1..] == dest + a && (a + b)[1..] == a[1..] + b;
      LookupAppend(fs, next, a[1..]);
      WalkDescends(fs, next, a[1..], b, budget);
    }
  }

  lemma {:induction false} WalkClimbs(fs: Node, dest: seq<string>, k: nat, b: seq<string>, budget: nat)
    ensures Walk(fs, dest, Ups(k) + b, budget) == Walk(fs, Climb(dest, k), b, budget)
    decreases k
  {
    if k == 0 {
      assert Ups(k) + b == b && Climb(dest, 0) == dest;
    } else {
      assert (Ups(k) + b)[0] == ".." && (Ups(k) + b)[1..] == Ups(k - 1) + b;
      WalkClimbs(fs, Climb(dest, 1), k - 1, b, budget);
      assert Climb(Climb(dest, 1), k - 1) == Climb(dest, k);
    }
  }

  /** The directory `parent` holds a link called `name`. */
  ghost predicate HoldsLink(fs: Node, parent: seq<string>, name: string, target: string) {
    && ValidTree(fs) && AllProper(parent + [name])
    && IsDirectory(fs, parent) && Lookup(fs, parent + [name]) == Some(Link(target))
  }

  lemma ReachLink(fs: Node, parent: seq<string>, name: string, target: string, rest: seq<string>)
    requires HoldsLink(fs, parent, name, target)
    ensures Locate(fs, parent + [name] + rest)
            == Walk(fs, if IsAbs(target) then [] else parent, Split(target, '/') + rest, MAX_LINKS - 1)
  {
    assert Proper((parent + [name])[|parent|]);
    assert forall i | 0 <= i < |parent| :: Proper((parent + [name])[i]) && parent[i] == (parent + [name])[i];
    assert [] + parent == parent && parent + [name] + rest == parent + ([name] + rest);
    WalkDescends(fs, [], parent, [name] + rest, MAX_LINKS);
    assert ([name] + rest)[0] == name && ([name] + rest)[1..] == rest;
  }

  lemma WalkClimbsDown(fs: Node, dest: seq<string>, ups: nat, down: seq<string>, budget: nat)
    requires AllProper(down) && IsReal(fs, Climb(dest, ups) + down)
    ensures Walk(fs, dest, Ups(ups) + down, budget) == Ok(Climb(dest, ups) + down)
  {
    WalkClimbs(fs, dest, ups, down, budget);
    WalkKeepsRealPath(fs, Climb(dest, ups), down, budget);
  }

  lemma WalkDot(fs: Node, dest: seq<string>, rest: seq<string>, budget: nat)
    ensures Walk(fs, dest, ["."] + rest, budget) == Walk(fs, dest, rest, budget)
  {
    assert (["."] + rest)[0] == "." && (["."] + rest)[1..] == rest;
  }

  lemma WalkRelParts(
    fs: Node, dest: seq<string>, parts: seq<string>, ups: nat, names: seq<string>, rest: seq<string>, budget: nat)
    requires parts == Ups(ups) + names && AllProper(names) && AllProper(rest)
    requires IsReal(fs, Climb(dest, ups) + (names + rest))
    ensures Walk(fs, dest, parts + rest, budget) == Ok(Climb(dest, ups) + (names + rest))
  {
    WalkClimbsDown(fs, dest, ups, names + rest, budget);
    assert parts + rest == Ups(ups) + (names + rest);
  }

  lemma WalkRelText(fs: Node, dest: seq<string>, ups: nat, names: seq<string>, rest: seq<string>, budget: nat)
    requires AllProper(names) && AllProper(rest) && IsReal(fs, Climb(dest, ups) + (names + rest))
    ensures Walk(fs, dest, Split(RelText(ups, names), '/') + rest, budget) == Ok(Climb(dest, ups) + (names + rest))
  {
    SplitRelText(ups, names);
    WalkRelParts(fs, dest, Ups(ups) + names, ups, names, rest, budget);
    if Ups(ups) + names == [] {
      WalkDot(fs, dest, rest, budget);
      assert [] + rest == rest;
    }
  }

  /** A relative link is read from the directory that holds it: it climbs from there, and then
      descends. */
  lemma RelativeLinkLeads(
    fs: Node, parent: seq<string>, name: string, ups: nat, names: seq<string>, rest: seq<string>)
    requires HoldsLink(fs, parent, name, RelText(ups, names)) && AllProper(names) && AllProper(rest)
    requires IsReal(fs, Climb(parent, ups) + (names + rest))
    ensures Locate(fs, parent + [name] + rest) == Ok(Climb(parent, ups) + (names + rest))
  {
    RelTextIsRelative(ups, names);
    ReachLink(fs, parent, name, RelText(ups, names), rest);
    WalkRelText(fs, parent, ups, names, rest, MAX_LINKS - 1);
  }

  lemma WalkAbsParts(fs: Node, parts: seq<string>, names: seq<string>, rest: seq<string>, budget: nat)
    requires parts == [""] + names && AllProper(names) && AllProper(rest) && IsReal(fs, names + rest)
    ensures Walk(fs, [], parts + rest, budget) == Ok(names + rest)
  {
    assert parts + rest == [""] + (names + rest) && [] + (names + rest) == names + rest;
    WalkSkips(fs, names + rest, budget);
    WalkKeepsRealPath(fs, [], names + rest, budget);
  }

  lemma WalkAbs(fs: Node, names: seq<string>, rest: seq<string>, budget: nat)
    requires AllProper(names) && AllProper(rest) && IsReal(fs, names + rest)
    ensures Walk(fs, [], Split(Abs(names), '/') + rest, budget) == Ok(names + rest)
  {
    if names == [] {
      WalkRoot(fs, rest, budget);
      assert names + rest == rest && [] + rest == rest;
      WalkKeepsRealPath(fs, [], rest, budget);
    } else {
      SplitFlat(names);
      WalkAbsParts(fs, [""] + names, names, rest, budget);
    }
  }

  lemma WalkRoot(fs: Node, rest: seq<string>, budget: nat)
    ensures Walk(fs, [], Split("/", '/') + rest, budget) == Walk(fs, [], rest, budget)
  {
    assert Split("/", '/') == [""] + [""];
    assert [""] + [""] + rest == [""] + ([""] + rest);
    WalkSkips(fs, [""] + rest, budget);
    WalkSkips(fs, rest, budget);
  }

  /** An absolute link is read from the root, wherever it is. */
  lemma AbsoluteLinkLeads(fs: Node, parent: seq<string>, name: string, names: seq<string>, rest: seq<string>)
    requires HoldsLink(fs, parent, name, Abs(names)) && AllProper(names) && AllProper(rest)
    requires IsReal(fs, names + rest)
    ensures Locate(fs, parent + [name] + rest) == Ok(names + rest)
  {
    ReachLink(fs, parent, name, Abs(names), rest);
    WalkAbs(fs, names, rest, MAX_LINKS - 1);
  }

  lemma WalkSkips(fs: Node, path: seq<string>, budget: nat)
    ensures Walk(fs, [], [""] + path, budget) == Walk(fs, [], path, budget)
  {
    assert ([""] + path)[0] == "" && ([""] + path)[1..] == path;
  }

  /** A located path is link-free and is its own location. */
  lemma LocateIsIdempotent(fs: Node, path: seq<string>)
    requires ValidTree(fs) && Locate(fs, path).Ok?
    ensures var there := Locate(fs, path).value;
            IsReal(fs, there) && AllProper(there) && Locate(fs, there) == Ok(there)
  {
    assert Lookup(fs, []) == Some(fs);
    WalkReachesRealPath(fs, [], path, MAX_LINKS);
    var there := Locate(fs, path).value;
    assert [] + there == there;
    WalkKeepsRealPath(fs, [], there, MAX_LINKS);
  }
}

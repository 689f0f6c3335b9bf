/** What a tree of packages means: where a request for a name leads, and when a tree that
    was laid out anew means what the old one meant. */
module PackageLayout {
  import opened Results

  /** A path is its list of components; [] is the directory that holds the new tree. */
  type Path = seq<string>

  const MODULES := "node_modules"

  /** What package.json says about other packages. Names are split at the slash. */
  datatype Metadata = Metadata(
    dependencies: seq<Path>,
    optionalDependencies: seq<Path>,
    peerDependencies: seq<Path>,
    bundledDependencies: seq<Path>,
    optionalPeers: set<Path>)

  /** A tree on disk: the directories that hold a package.json, with its content. */
  type Layout = map<Path, Metadata>

  // ---------- names and slots ----------

  predicate NameChar(c: char) {
    'a' <= c <= 'z' || 'A' <= c <= 'Z' || '0' <= c <= '9' || c == '_' || c == '.' || c == '-'
  }

  predicate PlainPart(part: string) {
    |part| > 0 && part != "." && part != ".." && forall c <- part :: NameChar(c)
  }

  predicate ScopePart(part: string) {
    |part| > 1 && part[0] == '@' && forall c <- part[1..] :: NameChar(c)
  }

  predicate ValidName(name: Path) {
    || (|name| == 1 && PlainPart(name[0]))
    || (|name| == 2 && ScopePart(name[0]) && PlainPart(name[1]))
  }

  /** Names that are accepted, and some that are not. */
  lemma NamesChecked()
    ensures ValidName(["left-pad"]) && ValidName(["@scope", "pkg_2.js"]) && ValidName([MODULES]) && ValidName(["9Zz"])
    ensures !ValidName(["."]) && !ValidName([".."]) && !ValidName(["@a", ".."]) && !ValidName([""]) && !ValidName(["a b"])
    ensures !ValidName(["a", "b"]) && !ValidName(["@a"]) && !ValidName(["@", "b"]) && !ValidName(["@a", "b", "c"]) && !ValidName([])
  {
    assert !NameChar("a b"[1]) && "a b"[1] in "a b";
    assert !NameChar("@a"[0]) && "@a"[0] in "@a";
  }

  /** A path that ends in node_modules; the name check accepts such a name. */
  predicate Reserved(path: Path) {
    path != [] && path[|path| - 1] == MODULES
  }

  function Slot(directory: Path, name: Path): Path {
    directory + [MODULES] + name
  }

  predicate Inside(root: Path, path: Path) {
    root <= path
  }

  /** The set of names a package requires. */
  ghost function Required(pkg: Metadata): set<Path> {
    set n | n in pkg.dependencies + pkg.optionalDependencies + pkg.peerDependencies + pkg.bundledDependencies
  }

  predicate Optional(pkg: Metadata, name: Path) {
    name in pkg.optionalDependencies || name in pkg.optionalPeers
  }

  /** Nearest-ancestor lookup: the walk of findDependency over the directories
      that hold a package.json. */
  function FindDependency(present: set<Path>, from: Path, name: Path): (found: Option<Path>)
    ensures found.Some? ==> found.value in present
    decreases |from|
  {
    if Slot(from, name) in present then Some(Slot(from, name))
    else if from == [] then None
    else FindDependency(present, from[..|from| - 1], name)
  }

  /** The walk of the worklist, and of Node: it skips directories called node_modules. */
  function Accessible(packages: map<Path, Path>, from: Path, name: Path): (found: Option<Path>)
    ensures found.Some? ==> found.value in packages
    decreases |from|
  {
    if !Reserved(from) && Slot(from, name) in packages then Some(Slot(from, name))
    else if from == [] then None
    else Accessible(packages, from[..|from| - 1], name)
  }

  // ---------- what the rebuilt tree owes the original ----------

  /** In the old tree, `origin` requires `name` and gets `source`. */
  ghost predicate Requires(layout: Layout, origin: Path, name: Path, source: Path) {
    && origin in layout && name in Required(layout[origin])
    && FindDependency(layout.Keys, origin, name) == Some(source)
  }

  /** Every request of `origin` has a valid name and is optional or gets in the new tree,
      as `gets` tells, the source it got in the old one. */
  ghost predicate Alike(layout: Layout, origin: Path, gets: (Path, Path) -> bool) {
    && origin in layout
    && (forall n <- Required(layout[origin]) :: ValidName(n))
    && (forall n <- Required(layout[origin]) ::
          FindDependency(layout.Keys, origin, n).None? ==> Optional(layout[origin], n))
    && (forall n, source | Requires(layout, origin, n, source) :: gets(n, source))
  }

  /** Found by the walk of findDependency. */
  predicate Found(packages: map<Path, Path>, at: Path, name: Path, source: Path) {
    var found := FindDependency(packages.Keys, at, name);
    found.Some? && packages[found.value] == source
  }

  /** Found by the walk that skips. */
  predicate Accessed(packages: map<Path, Path>, at: Path, name: Path, source: Path) {
    var found := Accessible(packages, at, name);
    found.Some? && packages[found.value] == source
  }

  /** What the worklist does for a request: the walk that skips finds the source, or the
      requester is called node_modules and has the source right inside it, where that walk
      does not look. */
  predicate Served(packages: map<Path, Path>, at: Path, name: Path, source: Path) {
    if Reserved(at) && Slot(at, name) in packages then packages[Slot(at, name)] == source
    else Accessed(packages, at, name, source)
  }

  ghost predicate ServedAt(layout: Layout, packages: map<Path, Path>, origin: Path, at: Path) {
    Alike(layout, origin, (n, source) => Served(packages, at, n, source))
  }

  ghost predicate AllServed(layout: Layout, root: Path, packages: map<Path, Path>) {
    ServedAt(layout, packages, root, []) && forall t <- packages :: ServedAt(layout, packages, packages[t], t)
  }

  /** The new tree means what the old one meant, for the application and every package in it. */
  ghost predicate Preserves(layout: Layout, root: Path, packages: map<Path, Path>) {
    && Alike(layout, root, (n, source) => Found(packages, [], n, source))
    && forall t <- packages :: Alike(layout, packages[t], (n, source) => Found(packages, t, n, source))
  }

  // ---------- nothing is placed without need ----------

  ghost predicate Leads(layout: Layout, from: Path, to: Path) {
    exists n :: Requires(layout, from, n, to)
  }

  ghost predicate Route(layout: Layout, root: Path, route: seq<Path>) {
    && route != [] && route[0] == root
    && forall i :: 0 <= i < |route| - 1 ==> Leads(layout, route[i], route[i + 1])
  }

  /** From the application, along requests, one gets to `d`. */
  ghost predicate Reachable(layout: Layout, root: Path, d: Path) {
    exists route :: Route(layout, root, route) && route[|route| - 1] == d
  }

  /** A placed package stands at the top or in a placed one, under a name by which a
      package the application needs requires it. */
  ghost predicate Wanted(layout: Layout, tree: Path, root: Path, packages: map<Path, Path>, t: Path) {
    && t in packages && Inside(tree, packages[t])
    && exists o, n, origin :: PlacedFor(layout, root, packages, t, o, n, origin)
  }

  ghost predicate PlacedFor(layout: Layout, root: Path, packages: map<Path, Path>, t: Path, o: Path, n: Path, origin: Path)
    requires t in packages
  {
    && t == Slot(o, n) && ValidName(n) && (o == [] || o in packages)
    && Reachable(layout, root, origin) && Requires(layout, origin, n, packages[t])
  }

  ghost predicate AllWanted(layout: Layout, tree: Path, root: Path, packages: map<Path, Path>) {
    forall t <- packages :: Wanted(layout, tree, root, packages, t)
  }

  lemma RootReachable(layout: Layout, root: Path)
    ensures Reachable(layout, root, root)
  {
    assert Route(layout, root, [root]);
  }

  lemma ReachesNext(layout: Layout, root: Path, d: Path, name: Path, source: Path)
    requires Reachable(layout, root, d) && Requires(layout, d, name, source)
    ensures Reachable(layout, root, source)
  {
    var route :| Route(layout, root, route) && route[|route| - 1] == d;
    var longer := route + [source];
    forall i | 0 <= i < |longer| - 1 ensures Leads(layout, longer[i], longer[i + 1]) {
      if i < |route| - 1 { assert Leads(layout, route[i], route[i + 1]); }
    }
    assert Route(layout, root, longer);
  }

  lemma PlacedReachable(layout: Layout, tree: Path, root: Path, packages: map<Path, Path>, t: Path)
    requires AllWanted(layout, tree, root, packages) && t in packages
    ensures Reachable(layout, root, packages[t])
  {
    assert Wanted(layout, tree, root, packages, t);
    var o, n, origin :| PlacedFor(layout, root, packages, t, o, n, origin);
    ReachesNext(layout, root, origin, n, packages[t]);
  }

  // ---------- lookup lemmas ----------

  lemma PartsDiffer(plain: string, scope: string)
    requires PlainPart(plain) && ScopePart(scope)
    ensures plain != scope && scope != MODULES
  {
    assert plain[0] in plain && !NameChar('@');
  }

  lemma SlotInjective(a: Path, m: Path, b: Path, n: Path)
    requires ValidName(m) && ValidName(n) && Slot(a, m) == Slot(b, n)
    ensures a == b && m == n
  {
    var s := Slot(a, m);
    assert |m| == 1 ==> s[|s| - 2] == MODULES;
    assert |n| == 1 ==> s[|s| - 2] == MODULES;
    assert |m| == 2 ==> s[|s| - 2] == m[0];
    assert |n| == 2 ==> s[|s| - 2] == n[0];
    if |m| == 2 { PartsDiffer(m[1], m[0]); }
    if |n| == 2 { PartsDiffer(n[1], n[0]); }
    assert |a| == |b|;
    assert a == s[..|a|] == b;
    assert m == s[|a| + 1..] == n;
  }

  // ---------- the exact condition ----------

  lemma {:induction false} FindHits(present: set<Path>, from: Path, name: Path) returns (l: nat)
    requires FindDependency(present, from, name).Some?
    ensures l <= |from| && FindDependency(present, from, name) == Some(Slot(from[..l], name))
    decreases |from|
  {
    if Slot(from, name) in present {
      assert from[..|from|] == from;
      return |from|;
    }
    l := FindHits(present, from[..|from| - 1], name);
    assert from[..|from| - 1][..l] == from[..l];
  }

  /** Where findDependency ends in a directory that the other walk does not skip, that walk
      ends there too. */
  lemma {:induction false} FoundIsAccessible(packages: map<Path, Path>, from: Path, name: Path, l: nat)
    requires l <= |from| && !Reserved(from[..l])
    requires ValidName(name) && FindDependency(packages.Keys, from, name) == Some(Slot(from[..l], name))
    ensures Accessible(packages, from, name) == Some(Slot(from[..l], name))
    decreases |from|
  {
    assert from[..|from|] == from;
    if Slot(from, name) in packages {
      SlotInjective(from, name, from[..l], name);
    } else {
      assert l < |from|;
      assert from[..|from| - 1][..l] == from[..l];
      FoundIsAccessible(packages, from[..|from| - 1], name, l);
    }
  }

  lemma {:induction false} AccessibleIsFound(packages: map<Path, Path>, from: Path, name: Path)
    requires Accessible(packages, from, name).Some?
    ensures FindDependency(packages.Keys, from, name).Some?
    decreases |from|
  {
    if from != [] && Slot(from, name) !in packages { AccessibleIsFound(packages, from[..|from| - 1], name); }
  }

  /** A package strictly inside one called node_modules finds, right in that one, something
      else than what it requires. */
  ghost predicate Shadowed(layout: Layout, packages: map<Path, Path>, t: Path, r: Path, name: Path, source: Path) {
    t in packages && Requires(layout, packages[t], name, source) && ShadowedBy(packages, t, r, name, source)
  }

  ghost predicate NothingShadowed(layout: Layout, packages: map<Path, Path>) {
    forall t, r, name, source :: !Shadowed(layout, packages, t, r, name, source)
  }

  predicate ShadowedBy(packages: map<Path, Path>, at: Path, r: Path, name: Path, source: Path) {
    && r in packages && Reserved(r) && r < at
    && FindDependency(packages.Keys, at, name) == Some(Slot(r, name)) && packages[Slot(r, name)] != source
  }

  lemma HolderIsPlaced(layout: Layout, tree: Path, root: Path, packages: map<Path, Path>, d: Path, name: Path)
    requires AllWanted(layout, tree, root, packages) && Slot(d, name) in packages && ValidName(name)
    ensures d == [] || d in packages
  {
    assert Wanted(layout, tree, root, packages, Slot(d, name));
    var o, n, origin :| PlacedFor(layout, root, packages, Slot(d, name), o, n, origin);
    SlotInjective(d, name, o, n);
  }

  lemma AccessedIsFound(layout: Layout, tree: Path, root: Path, packages: map<Path, Path>, at: Path, name: Path, source: Path)
    requires AllWanted(layout, tree, root, packages) && ValidName(name)
    requires Accessed(packages, at, name, source) && !(Reserved(at) && Slot(at, name) in packages)
    ensures Found(packages, at, name, source) || exists r :: ShadowedBy(packages, at, r, name, source)
  {
    AccessibleIsFound(packages, at, name);
    var l := FindHits(packages.Keys, at, name);
    var d := at[..l];
    if !Reserved(d) {
      FoundIsAccessible(packages, at, name, l);
    } else {
      HolderIsPlaced(layout, tree, root, packages, d, name);
      assert at[..|at|] == at;
      assert l < |at|;
      assert d < at;
      if packages[Slot(d, name)] != source { assert ShadowedBy(packages, at, d, name, source); }
    }
  }

  lemma ServedIsFound(layout: Layout, tree: Path, root: Path, packages: map<Path, Path>, at: Path, name: Path, source: Path)
    requires AllWanted(layout, tree, root, packages) && ValidName(name) && Served(packages, at, name, source)
    ensures Found(packages, at, name, source) || exists r :: ShadowedBy(packages, at, r, name, source)
  {
    if Reserved(at) && Slot(at, name) in packages {
      assert FindDependency(packages.Keys, at, name) == Some(Slot(at, name));
    } else {
      AccessedIsFound(layout, tree, root, packages, at, name, source);
    }
  }

  /** A tree in which every request is served means what the old tree meant, exactly if
      nothing inside a package called node_modules is shadowed by that package's own. */
  lemma PreservedUnlessShadowed(layout: Layout, tree: Path, root: Path, packages: map<Path, Path>)
    requires AllServed(layout, root, packages) && AllWanted(layout, tree, root, packages)
    ensures Preserves(layout, root, packages) <==> NothingShadowed(layout, packages)
  {
    if NothingShadowed(layout, packages) {
      forall n, source | Requires(layout, root, n, source) ensures Found(packages, [], n, source) {
        ServedIsFound(layout, tree, root, packages, [], n, source);
      }
      forall t <- packages ensures Alike(layout, packages[t], (n, source) => Found(packages, t, n, source)) {
        assert ServedAt(layout, packages, packages[t], t);
        forall n, source | Requires(layout, packages[t], n, source) ensures Found(packages, t, n, source) {
          ServedIsFound(layout, tree, root, packages, t, n, source);
          if !Found(packages, t, n, source) {
            var r :| ShadowedBy(packages, t, r, n, source);
            assert Shadowed(layout, packages, t, r, n, source);
          }
        }
      }
    } else {
      var t, r, n, source :| Shadowed(layout, packages, t, r, n, source);
      assert !Found(packages, t, n, source);
    }
  }

  /** For Node: a package called node_modules has a dependency of its own inside it, where
      Node does not look, and gets nothing or something else instead. */
  ghost predicate Hidden(layout: Layout, packages: map<Path, Path>, t: Path, name: Path, source: Path) {
    && t in packages && Reserved(t) && Slot(t, name) in packages
    && Requires(layout, packages[t], name, source) && !Accessed(packages, t, name, source)
  }

  ghost predicate PreservesForNode(layout: Layout, root: Path, packages: map<Path, Path>) {
    && Alike(layout, root, (n, source) => Accessed(packages, [], n, source))
    && forall t <- packages :: Alike(layout, packages[t], (n, source) => Accessed(packages, t, n, source))
  }

  ghost predicate NothingHidden(layout: Layout, packages: map<Path, Path>) {
    forall t, name, source :: !Hidden(layout, packages, t, name, source)
  }

  lemma PreservedForNodeUnlessHidden(layout: Layout, root: Path, packages: map<Path, Path>)
    requires AllServed(layout, root, packages)
    ensures PreservesForNode(layout, root, packages) <==> NothingHidden(layout, packages)
  {
    if NothingHidden(layout, packages) {
      forall t <- packages ensures Alike(layout, packages[t], (n, source) => Accessed(packages, t, n, source)) {
        assert ServedAt(layout, packages, packages[t], t);
        forall n, source | Requires(layout, packages[t], n, source) ensures Accessed(packages, t, n, source) {
          assert !Hidden(layout, packages, t, n, source);
        }
      }
    } else {
      var t, n, source :| Hidden(layout, packages, t, n, source);
      assert !Accessed(packages, t, n, source);
    }
  }

  /** No package the application needs gets one called node_modules. */
  ghost predicate NoReservedNames(layout: Layout, root: Path) {
    forall d, n, source | Requires(layout, d, n, source) && Reachable(layout, root, d) :: !Reserved(n)
  }

  lemma NoneReserved(layout: Layout, tree: Path, root: Path, packages: map<Path, Path>)
    requires AllWanted(layout, tree, root, packages) && NoReservedNames(layout, root)
    ensures forall t <- packages :: !Reserved(t)
  {
    forall t <- packages ensures !Reserved(t) {
      assert Wanted(layout, tree, root, packages, t);
      var o, n, origin :| PlacedFor(layout, root, packages, t, o, n, origin);
      SlotEnds(o, n);
      assert Requires(layout, origin, n, packages[t]);
    }
  }

  lemma SlotEnds(o: Path, n: Path)
    requires ValidName(n)
    ensures Reserved(Slot(o, n)) <==> Reserved(n)
  {
    assert Slot(o, n)[|Slot(o, n)| - 1] == n[|n| - 1];
  }

  /** Then none is placed, and both walks find what they should. */
  lemma PreservedWithoutReserved(layout: Layout, tree: Path, root: Path, packages: map<Path, Path>)
    requires AllServed(layout, root, packages) && AllWanted(layout, tree, root, packages)
    requires NoReservedNames(layout, root)
    ensures Preserves(layout, root, packages) && PreservesForNode(layout, root, packages)
  {
    NoneReserved(layout, tree, root, packages);
    PreservedUnlessShadowed(layout, tree, root, packages);
    PreservedForNodeUnlessHidden(layout, root, packages);
  }
}

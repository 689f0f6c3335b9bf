/** The worklist that lays out a production node_modules in a new place. */
module ProductionDependencies {
  import opened Results
  import opened PackageLayout

  // Every package must keep seeing, by nearest-ancestor lookup, exactly the dependencies that
  // the original tree gave it.

  datatype Edge = Edge(name: Path, source: Path)

  datatype Dependency = Dependency(source: Path, target: Path)

  datatype Error =
    | InvalidName(name: Path)
    | Missing(name: Path, requiredBy: Path)
    | Escapes(name: Path)
    | Unreadable(directory: Path)
    | PlacementConflict(target: Path)

  datatype Outcome =
    | Placed(packages: map<Path, Path>)
    | Failed(error: Error)
    | OutOfFuel

  // ---------- lookups while the tree grows ----------

  lemma {:induction false} AccessibleIgnores(packages: map<Path, Path>, t: Path, source: Path, from: Path, name: Path)
    requires forall l :: 0 <= l <= |from| ==> t != Slot(from[..l], name)
    ensures Accessible(packages[t := source], from, name) == Accessible(packages, from, name)
    decreases |from|
  {
    assert from[..|from|] == from;
    if from != [] {
      var up := from[..|from| - 1];
      forall l | 0 <= l <= |up| ensures t != Slot(up[..l], name) {
        assert up[..l] == from[..l];
      }
      AccessibleIgnores(packages, t, source, up, name);
    }
  }

  lemma {:induction false} NoneAtTop(packages: map<Path, Path>, from: Path, name: Path)
    requires Accessible(packages, from, name).None?
    ensures Slot([], name) !in packages
    decreases |from|
  {
    if from != [] { NoneAtTop(packages, from[..|from| - 1], name); }
  }

  /** A package added at the top takes a lookup over only if it found nothing before. */
  lemma {:induction false} TopAdded(packages: map<Path, Path>, n: Path, source: Path, from: Path, name: Path)
    requires ValidName(n) && ValidName(name) && Slot([], n) !in packages
    ensures Accessible(packages, from, name).Some? ==>
              Accessible(packages[Slot([], n) := source], from, name) == Accessible(packages, from, name)
    ensures Accessible(packages, from, n).None? ==>
              Accessible(packages[Slot([], n) := source], from, n) == Some(Slot([], n))
    decreases |from|
  {
    if from != [] {
      if Slot(from, name) == Slot([], n) { SlotInjective(from, name, [], n); }
      if Slot(from, n) == Slot([], n) { SlotInjective(from, n, [], n); }
      TopAdded(packages, n, source, from[..|from| - 1], name);
    }
  }

  // ---------- the worklist's own invariant ----------

  /** Ghost record of how each queue entry got its place: by which earlier entry
      (or -1 for the top of the tree) and under which name. */
  datatype Origin = Origin(owner: int, name: Path)

  ghost function OwnerPath(queue: seq<Dependency>, owner: int): Path
    requires -1 <= owner < |queue|
  {
    if owner == -1 then [] else queue[owner].target
  }

  /** How entry j got its place. Kept behind its own name so that a chain is
      followed one owner at a time. */
  ghost predicate Link(queue: seq<Dependency>, origins: seq<Origin>, index: int, j: int) {
    && 0 <= j < |queue| == |origins|
    && -1 <= origins[j].owner < j && origins[j].owner <= index
    && ValidName(origins[j].name)
    && queue[j].target == Slot(OwnerPath(queue, origins[j].owner), origins[j].name)
  }

  ghost predicate Chained(queue: seq<Dependency>, origins: seq<Origin>, index: int) {
    |origins| == |queue| && forall j :: 0 <= j < |queue| ==> Link(queue, origins, index, j)
  }

  ghost predicate Entry(packages: map<Path, Path>, queue: seq<Dependency>, j: int) {
    0 <= j < |queue| && queue[j].target in packages && packages[queue[j].target] == queue[j].source
  }

  ghost predicate Apart(queue: seq<Dependency>, j: int, k: int) {
    0 <= j < |queue| && 0 <= k < |queue| && (j != k ==> queue[j].target != queue[k].target)
  }

  ghost predicate Queued(queue: seq<Dependency>, t: Path) {
    exists j :: 0 <= j < |queue| && queue[j].target == t
  }

  /** The map and the queue hold the same dependencies, each target once. */
  ghost predicate Indexed(packages: map<Path, Path>, queue: seq<Dependency>) {
    && |packages| == |queue|
    && (forall j :: 0 <= j < |queue| ==> Entry(packages, queue, j))
    && (forall j, k :: 0 <= j < |queue| && 0 <= k < |queue| ==> Apart(queue, j, k))
    && (forall t <- packages :: Queued(queue, t))
  }

  /** A package path has at least two parts, and the last is not a scope. */
  lemma TargetShape(queue: seq<Dependency>, origins: seq<Origin>, index: int, j: int)
    requires Chained(queue, origins, index) && 0 <= j < |queue|
    ensures |queue[j].target| >= 2 && PlainPart(queue[j].target[|queue[j].target| - 1])
  {
    assert Link(queue, origins, index, j);
    var n := origins[j].name;
    assert queue[j].target[|queue[j].target| - 1] == n[|n| - 1];
  }

  /** The node_modules directory of a package is not itself a package path, even among
      packages called node_modules. */
  lemma {:induction false} ModulesIsNoPackage(queue: seq<Dependency>, origins: seq<Origin>, index: int, i: int, k: int)
    requires Chained(queue, origins, index) && 0 <= i < |queue| && 0 <= k < |queue|
    ensures queue[k].target != queue[i].target + [MODULES]
    decreases k
  {
    var a, b := queue[i].target, queue[k].target;
    if b == a + [MODULES] {
      assert Link(queue, origins, index, i) && Link(queue, origins, index, k);
      TargetShape(queue, origins, index, i);
      var c, m := OwnerPath(queue, origins[k].owner), origins[k].name;
      var d, p := OwnerPath(queue, origins[i].owner), origins[i].name;
      LastParts(c, m, a);
      assert a == c + [MODULES];
      LastOfOwner(d, p, c);
      if origins[k].owner >= 0 {
        TargetShape(queue, origins, index, origins[k].owner);
        if ScopePart(c[|c| - 1]) { PartsDiffer(c[|c| - 1], c[|c| - 1]); }
      }
      ModulesIsNoPackage(queue, origins, index, origins[i].owner, origins[k].owner);
    }
  }

  lemma LastParts(c: Path, m: Path, a: Path)
    requires ValidName(m) && Slot(c, m) == a + [MODULES] && a != [] && PlainPart(a[|a| - 1])
    ensures a == c + [MODULES]
  {
    var s := Slot(c, m);
    assert a == s[..|s| - 1];
    if |m| == 2 {
      assert a[|a| - 1] == m[0];
      PartsDiffer(a[|a| - 1], m[0]);
    }
  }

  lemma LastOfOwner(d: Path, p: Path, c: Path)
    requires ValidName(p) && Slot(d, p) == c + [MODULES]
    ensures c == d + [MODULES] || (c != [] && ScopePart(c[|c| - 1]))
  {
    var s := Slot(d, p);
    assert c == s[..|s| - 1];
  }

  /** No package path ends between the directory that holds a package and the package. */
  lemma NotBetween(queue: seq<Dependency>, origins: seq<Origin>, index: int, i: int, k: int)
    requires Chained(queue, origins, index) && 0 <= i < |queue| && 0 <= k < |queue|
    requires queue[i].target <= queue[k].target
    requires Link(queue, origins, index, k) && |OwnerPath(queue, origins[k].owner)| < |queue[i].target|
    ensures queue[i].target == queue[k].target
  {
    var t, u := queue[i].target, queue[k].target;
    var o, n := OwnerPath(queue, origins[k].owner), origins[k].name;
    TargetShape(queue, origins, index, i);
    assert t == u[..|t|];
    if |t| == |o| + 1 {
      assert t == o + [MODULES];
      ModulesIsNoPackage(queue, origins, index, origins[k].owner, i);
    } else if |t| < |u| {
      assert t[|t| - 1] == n[0];
      PartsDiffer(t[|t| - 1], n[0]);
    }
  }

  /** Queue order: a package above another in the tree was queued no later. */
  lemma {:induction false} AncestorsFirst(queue: seq<Dependency>, origins: seq<Origin>, index: int, i: int, k: int)
    requires Chained(queue, origins, index)
    requires forall a, b :: 0 <= a < |queue| && 0 <= b < |queue| ==> Apart(queue, a, b)
    requires 0 <= i < |queue| && 0 <= k < |queue|
    requires queue[i].target <= queue[k].target
    ensures i <= k
    decreases k
  {
    assert Link(queue, origins, index, k);
    var t, u := queue[i].target, queue[k].target;
    var o := OwnerPath(queue, origins[k].owner);
    if |t| <= |o| {
      assert t == u[..|t|] == o[..|t|];
      TargetShape(queue, origins, index, i);
      AncestorsFirst(queue, origins, index, i, origins[k].owner);
    } else {
      NotBetween(queue, origins, index, i, k);
      assert Apart(queue, i, k);
    }
  }

  /** `at` is the top of the tree or a package queued no later than `index`. */
  ghost predicate Seen(queue: seq<Dependency>, index: int, at: Path) {
    at == [] || exists k :: 0 <= k <= index < |queue| && queue[k].target == at
  }

  /** Where the worklist puts a request of entry `index`. */
  function Target(queue: seq<Dependency>, index: int, nested: bool, name: Path): Path
    requires nested ==> 0 <= index < |queue|
  {
    Slot(if nested then queue[index].target else [], name)
  }

  /** A new package nested under the entry being processed is in nobody's way: of all that
      was queued so far only that entry looks there, and under that name alone. */
  lemma NestedApart(queue: seq<Dependency>, origins: seq<Origin>, index: int, n: Path, at: Path, l: int, name: Path)
    requires Chained(queue, origins, index) && 0 <= index < |queue|
    requires forall a, b :: 0 <= a < |queue| && 0 <= b < |queue| ==> Apart(queue, a, b)
    requires ValidName(n) && ValidName(name) && Seen(queue, index, at)
    requires at == queue[index].target ==> name != n
    requires 0 <= l <= |at|
    ensures Slot(queue[index].target, n) != Slot(at[..l], name)
  {
    var here := queue[index].target;
    if Slot(here, n) == Slot(at[..l], name) {
      SlotInjective(here, n, at[..l], name);
      TargetShape(queue, origins, index, index);
      var k :| 0 <= k <= index && queue[k].target == at;
      AncestorsFirst(queue, origins, index, index, k);
    }
  }

  /** A placement made for entry `index` disturbs no request that was served before. */
  lemma Undisturbed(packages: map<Path, Path>, queue: seq<Dependency>, origins: seq<Origin>, index: int,
                    n: Path, nested: bool, source: Path, at: Path, name: Path, wanted: Path)
    requires -1 <= index < |queue| || index == -1
    requires Chained(queue, origins, index) && Indexed(packages, queue) && (nested ==> index >= 0)
    requires ValidName(n) && ValidName(name)
    requires Target(queue, index, nested, n) !in packages
    requires Seen(queue, index, at)
    requires index >= 0 && at == queue[index].target ==> name != n
    requires Served(packages, at, name, wanted)
    ensures Served(packages[Target(queue, index, nested, n) := source], at, name, wanted)
  {
    var t := Target(queue, index, nested, n);
    assert at[..|at|] == at;
    if nested {
      forall l | 0 <= l <= |at| ensures t != Slot(at[..l], name) {
        NestedApart(queue, origins, index, n, at, l, name);
      }
      AccessibleIgnores(packages, t, source, at, name);
    } else {
      TopAdded(packages, n, source, at, name);
      if t == Slot(at, name) { SlotInjective([], n, at, name); }
    }
  }

  /** A place taken by an earlier request of the same owner is the only way a slot can be full. */
  lemma SlotOwner(packages: map<Path, Path>, queue: seq<Dependency>, origins: seq<Origin>, index: int, i: int, n: Path)
    requires Chained(queue, origins, index) && Indexed(packages, queue) && -1 <= i < |queue| && ValidName(n)
    requires Slot(OwnerPath(queue, i), n) in packages
    ensures exists j :: 0 <= j < |queue| && origins[j] == Origin(i, n)
  {
    var t := Slot(OwnerPath(queue, i), n);
    assert Queued(queue, t);
    var j :| 0 <= j < |queue| && queue[j].target == t;
    assert Link(queue, origins, index, j);
    var owner := origins[j].owner;
    SlotInjective(OwnerPath(queue, i), n, OwnerPath(queue, owner), origins[j].name);
    if owner >= 0 { TargetShape(queue, origins, index, owner); }
    if i >= 0 { TargetShape(queue, origins, index, i); }
    if owner >= 0 && i >= 0 { assert Apart(queue, i, owner); }
    assert origins[j] == Origin(i, n);
  }

  // ---------- the algorithm, as a function ----------

  function Names(pkg: Metadata): (names: seq<Path>)
    ensures forall n :: n in names <==> n in Required(pkg)
    ensures forall j, k :: 0 <= j < k < |names| ==> names[j] != names[k]
  {
    Distinct(pkg.dependencies + pkg.optionalDependencies + pkg.peerDependencies + pkg.bundledDependencies)
  }

  /** The order of a JavaScript Set filled from the list. */
  function Distinct(names: seq<Path>): (r: seq<Path>)
    ensures forall n :: n in r <==> n in names
    ensures forall j, k :: 0 <= j < k < |r| ==> r[j] != r[k]
  {
    if names == [] then []
    else
      var front := Distinct(names[..|names| - 1]);
      var last := names[|names| - 1];
      assert names == names[..|names| - 1] + [last];
      if last in front then front else front + [last]
  }

  /** Every request of a package that is on disk, resolved in the old tree. */
  ghost predicate EdgesOf(layout: Layout, directory: Path, names: seq<Path>, edges: seq<Edge>) {
    && directory in layout
    && (forall j, k :: 0 <= j < k < |edges| ==> edges[j].name != edges[k].name)
    && (forall e <- edges :: e.name in names
          && FindDependency(layout.Keys, directory, e.name) == Some(e.source))
    && (forall n <- names :: ValidName(n))
    && (forall n <- names ::
          match FindDependency(layout.Keys, directory, n)
          case None => Optional(layout[directory], n)
          case Some(source) => Edge(n, source) in edges)
  }

  ghost predicate EdgeFault(layout: Layout, tree: Path, directory: Path, error: Error) {
    match error
    case InvalidName(n) => directory in layout && n in Required(layout[directory]) && !ValidName(n)
    case Missing(n, requirer) => requirer == directory && directory in layout && n in Required(layout[directory])
      && FindDependency(layout.Keys, directory, n).None? && !Optional(layout[directory], n)
    case Escapes(n) => directory in layout && n in Required(layout[directory])
      && FindDependency(layout.Keys, directory, n).Some?
      && !Inside(tree, FindDependency(layout.Keys, directory, n).value)
    case Unreadable(d) => d == directory && d !in layout
    case PlacementConflict(_) => false
  }

  /** The requests of a directory, in order, up to the first fault. */
  function EdgesFrom(layout: Layout, tree: Path, directory: Path, names: seq<Path>): Result<seq<Edge>, Error>
    requires directory in layout
  {
    if names == [] then Success([])
    else
      var name := names[0];
      if !ValidName(name) then Failure(InvalidName(name))
      else
        var source := FindDependency(layout.Keys, directory, name);
        if source.None? then
          if Optional(layout[directory], name) then EdgesFrom(layout, tree, directory, names[1..])
          else Failure(Missing(name, directory))
        else if !Inside(tree, source.value) then Failure(Escapes(name))
        else
          var rest := EdgesFrom(layout, tree, directory, names[1..]);
          if rest.Failure? then rest else Success([Edge(name, source.value)] + rest.value)
  }

  function RequestsOf(layout: Layout, tree: Path, directory: Path): Result<seq<Edge>, Error> {
    if directory in layout then EdgesFrom(layout, tree, directory, Names(layout[directory]))
    else Failure(Unreadable(directory))
  }

  datatype Work = Work(packages: map<Path, Path>, queue: seq<Dependency>)

  /** `add`: reserve a slot for a source, unless another source has it. */
  function Put(w: Work, source: Path, target: Path): (r: Result<Work, Error>)
    ensures r.Success? ==> |w.queue| <= |r.value.queue|
  {
    if target in w.packages then
      if w.packages[target] == source then Success(w) else Failure(PlacementConflict(target))
    else Success(Work(w.packages[target := source], w.queue + [Dependency(source, target)]))
  }

  function PutDirect(w: Work, edges: seq<Edge>): Result<Work, Error>
    decreases |edges|
  {
    if edges == [] then Success(w)
    else
      var next := Put(w, edges[0].source, Slot([], edges[0].name));
      if next.Failure? then next else PutDirect(next.value, edges[1..])
  }

  predicate Nests(w: Work, index: nat, edge: Edge)
    requires index < |w.queue|
  {
    || Accessible(w.packages, w.queue[index].target, edge.name).Some?
    || Inside(w.queue[index].source + [MODULES], edge.source)
  }

  /** One request of queue entry `index`. */
  function SettleOne(w: Work, index: nat, edge: Edge): (r: Result<Work, Error>)
    requires index < |w.queue|
    ensures r.Success? ==> |w.queue| <= |r.value.queue|
  {
    if Accessed(w.packages, w.queue[index].target, edge.name, edge.source) then Success(w)
    else Put(w, edge.source, Target(w.queue, index, Nests(w, index, edge), edge.name))
  }

  /** Where a request puts its source: what is found already stays; else it goes next to the
      requester, if something else is found there or it lay in the requester's own
      node_modules, and to the top if not. A taken slot is a conflict. */
  lemma {:induction false} PlacementOf(w: Work, index: nat, edge: Edge)
    requires index < |w.queue|
    ensures var owner, r := w.queue[index], SettleOne(w, index, edge);
      var found := Accessible(w.packages, owner.target, edge.name);
      var nested := found.Some? || (owner.source + ["node_modules"]) <= edge.source;
      var target := (if nested then owner.target else []) + ["node_modules"] + edge.name;
      if found.Some? && w.packages[found.value] == edge.source then r == Success(w)
      else if target !in w.packages then r == Success(Work(w.packages[target := edge.source], w.queue + [Dependency(edge.source, target)]))
      else if w.packages[target] == edge.source then r == Success(w)
      else r == Failure(PlacementConflict(target))
  {
  }

  function SettleAll(w: Work, index: nat, edges: seq<Edge>): (r: Result<Work, Error>)
    requires index < |w.queue|
    ensures r.Success? ==> |w.queue| <= |r.value.queue|
    decreases |edges|
  {
    if edges == [] then Success(w)
    else
      var next := SettleOne(w, index, edges[0]);
      if next.Failure? then next else SettleAll(next.value, index, edges[1..])
  }

  function Follow(layout: Layout, tree: Path, w: Work, index: nat, fuel: nat): Outcome
    decreases fuel - index
  {
    if index >= |w.queue| then Placed(w.packages)
    else if index >= fuel then OutOfFuel
    else
      var edges := RequestsOf(layout, tree, w.queue[index].source);
      if edges.Failure? then Failed(edges.error)
      else
        var next := SettleAll(w, index, edges.value);
        if next.Failure? then Failed(next.error) else Follow(layout, tree, next.value, index + 1, fuel)
  }

  function Relayout(layout: Layout, root: Path, tree: Path, fuel: nat): Outcome {
    var edges := RequestsOf(layout, tree, root);
    if edges.Failure? then Failed(edges.error)
    else
      var direct := PutDirect(Work(map[], []), edges.value);
      if direct.Failure? then Failed(direct.error) else Follow(layout, tree, direct.value, 0, fuel)
  }

  // ---------- the algorithm, step by step ----------

  lemma {:induction false} EdgesFromFits(layout: Layout, tree: Path, directory: Path, names: seq<Path>)
    requires directory in layout && forall n <- names :: n in Required(layout[directory])
    requires forall j, k :: 0 <= j < k < |names| ==> names[j] != names[k]
    ensures var r := EdgesFrom(layout, tree, directory, names);
            if r.Success? then EdgesOf(layout, directory, names, r.value) && forall e <- r.value :: Inside(tree, e.source)
            else EdgeFault(layout, tree, directory, r.error)
  {
    if names != [] {
      var rest := EdgesFrom(layout, tree, directory, names[1..]);
      EdgesFromFits(layout, tree, directory, names[1..]);
      assert names == [names[0]] + names[1..];
      assert names[0] !in names[1..];
    }
  }

  /** The loop over the names of a package that is there. */
  method Collect(layout: Layout, tree: Path, directory: Path, names: seq<Path>) returns (r: Result<seq<Edge>, Error>)
    requires directory in layout
    ensures r == EdgesFrom(layout, tree, directory, names)
  {
    var edges: seq<Edge> := [];
    assert names[0..] == names;
    AfterNone(EdgesFrom(layout, tree, directory, names));
    for k := 0 to |names|
      invariant EdgesFrom(layout, tree, directory, names) == After(edges, EdgesFrom(layout, tree, directory, names[k..]))
    {
      var name := names[k];
      EdgesFromNext(layout, tree, directory, names, k);
      if !ValidName(name) { return Failure(InvalidName(name)); }
      var source := FindDependency(layout.Keys, directory, name);
      if source.None? {
        if Optional(layout[directory], name) { continue; }
        return Failure(Missing(name, directory));
      }
      if !Inside(tree, source.value) { return Failure(Escapes(name)); }
      AfterOne(edges, Edge(name, source.value), EdgesFrom(layout, tree, directory, names[k + 1..]));
      edges := edges + [Edge(name, source.value)];
    }
    assert names[|names|..] == [] && edges + [] == edges;
    return Success(edges);
  }

  lemma EdgesFromNext(layout: Layout, tree: Path, directory: Path, names: seq<Path>, k: nat)
    requires directory in layout && k < |names|
    ensures EdgesFrom(layout, tree, directory, names[k..]) ==
      var rest := EdgesFrom(layout, tree, directory, names[k + 1..]);
      var source := FindDependency(layout.Keys, directory, names[k]);
      if !ValidName(names[k]) then Failure(InvalidName(names[k]))
      else if source.None? then if Optional(layout[directory], names[k]) then rest else Failure(Missing(names[k], directory))
      else if !Inside(tree, source.value) then Failure(Escapes(names[k]))
      else After([Edge(names[k], source.value)], rest)
  {
    assert names[k..][1..] == names[k + 1..];
  }

  method Edges(layout: Layout, tree: Path, directory: Path) returns (r: Result<seq<Edge>, Error>)
    ensures r == RequestsOf(layout, tree, directory)
    ensures r.Success? ==> directory in layout && EdgesOf(layout, directory, Names(layout[directory]), r.value)
    ensures r.Success? ==> forall e <- r.value :: Inside(tree, e.source)
    ensures r.Failure? ==> EdgeFault(layout, tree, directory, r.error)
    // Only optional ones may be missing, and everything found is below the tree.
    ensures r.Success? ==> forall n <- Required(layout[directory]) ::
              || n in layout[directory].optionalDependencies || n in layout[directory].optionalPeers
              || exists e <- r.value :: e.name == n
    ensures r.Success? ==> forall e <- r.value :: |tree| <= |e.source| && e.source[..|tree|] == tree
    ensures r.Failure? && r.error.Missing? ==>
              r.error.name !in layout[directory].optionalDependencies && r.error.name !in layout[directory].optionalPeers
  {
    if directory !in layout { return Failure(Unreadable(directory)); }
    var names := Names(layout[directory]);
    EdgesFromFits(layout, tree, directory, names);
    r := Collect(layout, tree, directory, names);
  }

  lemma AfterOne(edges: seq<Edge>, e: Edge, rest: Result<seq<Edge>, Error>)
    ensures After(edges + [e], rest) == After(edges, After([e], rest))
  {
    if rest.Success? { assert edges + [e] + rest.value == edges + ([e] + rest.value); }
  }

  function After(edges: seq<Edge>, rest: Result<seq<Edge>, Error>): Result<seq<Edge>, Error> {
    if rest.Failure? then rest else Success(edges + rest.value)
  }

  lemma AfterNone(rest: Result<seq<Edge>, Error>)
    ensures After([], rest) == rest
  {
    if rest.Success? { assert [] + rest.value == rest.value; }
  }

  /** Everything known about the shape of the tree while entry `index` is being
      processed and the requests in `done` of that entry are settled. */
  ghost predicate Progress(packages: map<Path, Path>, queue: seq<Dependency>, origins: seq<Origin>,
                           index: int, done: seq<Edge>)
  {
    && -1 <= index <= |queue|
    && Chained(queue, origins, index)
    && Indexed(packages, queue)
    && OwnNames(origins, index, done)
  }

  ghost predicate Named(origins: seq<Origin>, index: int, done: seq<Edge>, j: int) {
    0 <= j < |origins| && (origins[j].owner == index ==> exists e <- done :: e.name == origins[j].name)
  }

  ghost predicate OwnNames(origins: seq<Origin>, index: int, done: seq<Edge>) {
    forall j :: 0 <= j < |origins| ==> Named(origins, index, done, j)
  }

  /** The requests settled so far are served. */
  ghost predicate Settled(layout: Layout, root: Path, packages: map<Path, Path>, queue: seq<Dependency>, upTo: int)
    requires upTo <= |queue|
  {
    && ServedAt(layout, packages, root, [])
    && forall j :: 0 <= j < upTo ==> ServedAt(layout, packages, queue[j].source, queue[j].target)
  }

  ghost predicate Satisfied(packages: map<Path, Path>, at: Path, done: seq<Edge>) {
    forall e <- done :: Served(packages, at, e.name, e.source)
  }

  lemma EdgesSettle(layout: Layout, directory: Path, edges: seq<Edge>, packages: map<Path, Path>, at: Path)
    requires directory in layout && EdgesOf(layout, directory, Names(layout[directory]), edges)
    requires Satisfied(packages, at, edges)
    ensures ServedAt(layout, packages, directory, at)
  {
    var names := Names(layout[directory]);
    forall n <- Required(layout[directory]) ensures ValidName(n) {
      assert n in names;
    }
    forall n <- Required(layout[directory]) | FindDependency(layout.Keys, directory, n).None?
      ensures Optional(layout[directory], n)
    {
      assert n in names;
    }
    forall n, source | Requires(layout, directory, n, source) ensures Served(packages, at, n, source) {
      assert n in names && Edge(n, source) in edges;
    }
  }

  /** A placement leaves what was settled settled. */
  lemma KeepsServed(layout: Layout, packages: map<Path, Path>, queue: seq<Dependency>, origins: seq<Origin>, index: int,
                    n: Path, nested: bool, source: Path, origin: Path, at: Path)
    requires 0 <= index < |queue|
    requires Chained(queue, origins, index) && Indexed(packages, queue)
    requires ValidName(n) && Target(queue, index, nested, n) !in packages
    requires Seen(queue, index, at) && at != queue[index].target
    requires ServedAt(layout, packages, origin, at)
    ensures ServedAt(layout, packages[Target(queue, index, nested, n) := source], origin, at)
  {
    var packages' := packages[Target(queue, index, nested, n) := source];
    forall m, wanted | Requires(layout, origin, m, wanted) ensures Served(packages', at, m, wanted) {
      Undisturbed(packages, queue, origins, index, n, nested, source, at, m, wanted);
    }
  }

  lemma KeepsSettled(layout: Layout, root: Path, packages: map<Path, Path>, queue: seq<Dependency>, origins: seq<Origin>,
                     index: int, n: Path, nested: bool, source: Path)
    requires 0 <= index < |queue|
    requires Chained(queue, origins, index) && Indexed(packages, queue)
    requires ValidName(n) && Target(queue, index, nested, n) !in packages
    requires Settled(layout, root, packages, queue, index)
    ensures Settled(layout, root, packages[Target(queue, index, nested, n) := source], queue, index)
  {
    TargetShape(queue, origins, index, index);
    KeepsServed(layout, packages, queue, origins, index, n, nested, source, root, []);
    forall j | 0 <= j < index
      ensures ServedAt(layout, packages[Target(queue, index, nested, n) := source], queue[j].source, queue[j].target)
    {
      assert Apart(queue, j, index);
      KeepsServed(layout, packages, queue, origins, index, n, nested, source, queue[j].source, queue[j].target);
    }
  }

  /** The request itself, and the earlier requests of the same entry. */
  lemma KeepsSatisfied(packages: map<Path, Path>, queue: seq<Dependency>, origins: seq<Origin>, index: int,
                       done: seq<Edge>, edge: Edge, nested: bool)
    requires -1 <= index < |queue| || index == -1
    requires Chained(queue, origins, index) && Indexed(packages, queue) && (nested ==> index >= 0)
    requires ValidName(edge.name) && forall e <- done :: ValidName(e.name) && e.name != edge.name
    requires Target(queue, index, nested, edge.name) !in packages
    requires Satisfied(packages, OwnerPath(queue, index), done)
    requires !nested ==> Accessible(packages, OwnerPath(queue, index), edge.name).None?
    requires !nested && index >= 0 ==> Slot(queue[index].target, edge.name) !in packages
    ensures Satisfied(packages[Target(queue, index, nested, edge.name) := edge.source], OwnerPath(queue, index), done + [edge])
  {
    var at := OwnerPath(queue, index);
    var t := Target(queue, index, nested, edge.name);
    var packages' := packages[t := edge.source];
    forall e <- done ensures Served(packages', at, e.name, e.source) {
      Undisturbed(packages, queue, origins, index, edge.name, nested, edge.source, at, e.name, e.source);
    }
    if !nested {
      TopAdded(packages, edge.name, edge.source, at, edge.name);
      if index >= 0 && Slot(at, edge.name) == t { SlotInjective(at, edge.name, [], edge.name); }
    }
  }

  lemma KeepsChained(queue: seq<Dependency>, origins: seq<Origin>, index: int, d: Dependency, o: Origin)
    requires Chained(queue, origins, index) && -1 <= o.owner <= index && o.owner < |queue| && ValidName(o.name)
    requires d.target == Slot(OwnerPath(queue, o.owner), o.name)
    ensures Chained(queue + [d], origins + [o], index)
  {
    forall j | 0 <= j < |queue + [d]| ensures Link(queue + [d], origins + [o], index, j) {
      if j < |queue| { assert Link(queue, origins, index, j); }
    }
  }

  lemma KeepsIndexed(packages: map<Path, Path>, queue: seq<Dependency>, d: Dependency)
    requires Indexed(packages, queue) && d.target !in packages
    ensures Indexed(packages[d.target := d.source], queue + [d])
  {
    var packages' := packages[d.target := d.source];
    var queue' := queue + [d];
    assert packages'.Keys == packages.Keys + {d.target};
    forall j | 0 <= j < |queue'| ensures Entry(packages', queue', j) {
      if j < |queue| { assert Entry(packages, queue, j); }
    }
    forall j, k | 0 <= j < |queue'| && 0 <= k < |queue'| ensures Apart(queue', j, k) {
      if j < |queue| { assert Entry(packages, queue, j); }
      if k < |queue| { assert Entry(packages, queue, k); }
      if j < |queue| && k < |queue| { assert Apart(queue, j, k); }
    }
    forall u <- packages' ensures Queued(queue', u) {
      if u == d.target {
        assert queue'[|queue|].target == u;
      } else {
        assert Queued(queue, u);
        var j :| 0 <= j < |queue| && queue[j].target == u;
        assert queue'[j].target == u;
      }
    }
  }

  lemma KeepsOwnNames(origins: seq<Origin>, index: int, done: seq<Edge>, edge: Edge, owner: int)
    requires OwnNames(origins, index, done)
    ensures OwnNames(origins + [Origin(owner, edge.name)], index, done + [edge])
  {
    OwnNamesGrow(origins, index, done, edge);
    var origins' := origins + [Origin(owner, edge.name)];
    forall j | 0 <= j < |origins'| ensures Named(origins', index, done + [edge], j) {
      if j < |origins| { assert Named(origins, index, done + [edge], j); } else { assert edge in done + [edge]; }
    }
  }

  lemma KeepsProgress(packages: map<Path, Path>, queue: seq<Dependency>, origins: seq<Origin>, index: int,
                      done: seq<Edge>, edge: Edge, nested: bool)
    requires Progress(packages, queue, origins, index, done) && (nested ==> 0 <= index < |queue|)
    requires ValidName(edge.name)
    requires Target(queue, index, nested, edge.name) !in packages
    ensures var t := Target(queue, index, nested, edge.name);
      Progress(packages[t := edge.source], queue + [Dependency(edge.source, t)],
        origins + [Origin(if nested then index else -1, edge.name)], index, done + [edge])
  {
    var d := Dependency(edge.source, Target(queue, index, nested, edge.name));
    var owner := if nested then index else -1;
    KeepsChained(queue, origins, index, d, Origin(owner, edge.name));
    KeepsIndexed(packages, queue, d);
    KeepsOwnNames(origins, index, done, edge, owner);
  }

  lemma KeepsWanted(layout: Layout, tree: Path, root: Path, packages: map<Path, Path>, o: Path, origin: Path, edge: Edge)
    requires AllWanted(layout, tree, root, packages) && Slot(o, edge.name) !in packages && (o == [] || o in packages)
    requires Reachable(layout, root, origin) && Requires(layout, origin, edge.name, edge.source)
    requires ValidName(edge.name) && Inside(tree, edge.source)
    ensures AllWanted(layout, tree, root, packages[Slot(o, edge.name) := edge.source])
  {
    var t := Slot(o, edge.name);
    var packages' := packages[t := edge.source];
    assert PlacedFor(layout, root, packages', t, o, edge.name, origin);
    forall u <- packages' | u != t ensures Wanted(layout, tree, root, packages', u) {
      assert Wanted(layout, tree, root, packages, u);
      var o', n', origin' :| PlacedFor(layout, root, packages, u, o', n', origin');
      assert PlacedFor(layout, root, packages', u, o', n', origin');
    }
  }

  lemma OwnNamesGrow(origins: seq<Origin>, index: int, done: seq<Edge>, edge: Edge)
    requires OwnNames(origins, index, done)
    ensures OwnNames(origins, index, done + [edge])
  {
    forall j | 0 <= j < |origins| && origins[j].owner == index
      ensures Named(origins, index, done + [edge], j)
    {
      assert Named(origins, index, done, j);
      var e :| e in done && e.name == origins[j].name;
      assert e in done + [edge];
    }
  }

  /** The slot chosen for a request is free, whichever branch chose it; and so is the one
      inside the requester. */
  lemma SlotFree(packages: map<Path, Path>, queue: seq<Dependency>, origins: seq<Origin>, index: int,
                 done: seq<Edge>, edge: Edge, nested: bool)
    requires Progress(packages, queue, origins, index, done) && (nested ==> 0 <= index < |queue|)
    requires -1 <= index < |queue| || index == -1
    requires ValidName(edge.name) && forall e <- done :: e.name != edge.name
    requires !nested && index >= 0 ==> Accessible(packages, OwnerPath(queue, index), edge.name).None?
    ensures Target(queue, index, nested, edge.name) !in packages
    ensures Slot(OwnerPath(queue, index), edge.name) !in packages
    ensures !nested ==> Accessible(packages, OwnerPath(queue, index), edge.name).None?
  {
    forall j | 0 <= j < |origins| && origins[j].owner == index ensures origins[j].name != edge.name {
      assert Named(origins, index, done, j);
    }
    if Slot(OwnerPath(queue, index), edge.name) in packages {
      SlotOwner(packages, queue, origins, index, index, edge.name);
    }
    if !nested && index >= 0 { NoneAtTop(packages, OwnerPath(queue, index), edge.name); }
  }

  lemma Advance(packages: map<Path, Path>, queue: seq<Dependency>, origins: seq<Origin>, index: int, done: seq<Edge>)
    requires Progress(packages, queue, origins, index, done) && index < |queue| + 1
    requires index == -1 || index < |queue|
    ensures Progress(packages, queue, origins, index + 1, [])
  {
    forall j | 0 <= j < |queue| ensures Link(queue, origins, index + 1, j) && origins[j].owner != index + 1 {
      assert Link(queue, origins, index, j);
    }
  }

  /** The whole state of the worklist while entry `index` has settled the requests in `done`. */
  ghost predicate Working(layout: Layout, tree: Path, root: Path, packages: map<Path, Path>, queue: seq<Dependency>,
                          origins: seq<Origin>, index: int, done: seq<Edge>)
  {
    && 0 <= index < |queue|
    && Progress(packages, queue, origins, index, done)
    && Settled(layout, root, packages, queue, index)
    && Satisfied(packages, queue[index].target, done)
    && AllWanted(layout, tree, root, packages)
  }

  /** One request settled by a new placement. */
  lemma PlaceOne(layout: Layout, tree: Path, root: Path, packages: map<Path, Path>, queue: seq<Dependency>,
                 origins: seq<Origin>, index: int, done: seq<Edge>, edge: Edge, nested: bool)
    requires Working(layout, tree, root, packages, queue, origins, index, done)
    requires ValidName(edge.name) && forall e <- done :: ValidName(e.name) && e.name != edge.name
    requires Requires(layout, queue[index].source, edge.name, edge.source) && Inside(tree, edge.source)
    requires !nested ==> Accessible(packages, queue[index].target, edge.name).None?
    ensures var t := Target(queue, index, nested, edge.name);
      && t !in packages
      && Working(layout, tree, root, packages[t := edge.source], queue + [Dependency(edge.source, t)],
           origins + [Origin(if nested then index else -1, edge.name)], index, done + [edge])
  {
    SlotFree(packages, queue, origins, index, done, edge, nested);
    KeepsSatisfied(packages, queue, origins, index, done, edge, nested);
    KeepsSettled(layout, root, packages, queue, origins, index, edge.name, nested, edge.source);
    KeepsProgress(packages, queue, origins, index, done, edge, nested);
    assert Entry(packages, queue, index);
    PlacedReachable(layout, tree, root, packages, queue[index].target);
    KeepsWanted(layout, tree, root, packages, if nested then queue[index].target else [], queue[index].source, edge);
  }

  /** `add`: reserve a slot for a source. `conflict` is the placement-conflict error. */
  method Add(packages: map<Path, Path>, queue: seq<Dependency>, source: Path, target: Path)
    returns (packages': map<Path, Path>, queue': seq<Dependency>, conflict: bool)
    ensures Put(Work(packages, queue), source, target) ==
            if conflict then Failure(PlacementConflict(target)) else Success(Work(packages', queue'))
    ensures conflict <==> target in packages && packages[target] != source
    ensures target in packages ==> packages' == packages && queue' == queue
    ensures target !in packages ==>
              packages' == packages[target := source] && queue' == queue + [Dependency(source, target)]
  {
    if target in packages { return packages, queue, packages[target] != source; }
    return packages[target := source], queue + [Dependency(source, target)], false;
  }

  lemma EdgeAt(layout: Layout, directory: Path, edges: seq<Edge>, k: int)
    requires directory in layout && EdgesOf(layout, directory, Names(layout[directory]), edges) && 0 <= k < |edges|
    ensures ValidName(edges[k].name) && Requires(layout, directory, edges[k].name, edges[k].source)
    ensures forall e <- edges[..k] :: ValidName(e.name) && e.name != edges[k].name
    ensures edges[..k + 1] == edges[..k] + [edges[k]]
  {
    assert edges[k] in edges;
    forall e <- edges[..k] ensures ValidName(e.name) && e.name != edges[k].name {
      assert e in edges;
    }
  }

  /** A request that finds its source is settled as it is. */
  lemma {:induction false} AlreadyServed(layout: Layout, tree: Path, root: Path, packages: map<Path, Path>, queue: seq<Dependency>,
                                         origins: seq<Origin>, index: int, done: seq<Edge>, edge: Edge)
    requires Working(layout, tree, root, packages, queue, origins, index, done)
    requires ValidName(edge.name) && forall e <- done :: ValidName(e.name) && e.name != edge.name
    requires Accessed(packages, queue[index].target, edge.name, edge.source)
    ensures Working(layout, tree, root, packages, queue, origins, index, done + [edge])
  {
    SlotFree(packages, queue, origins, index, done, edge, true);
    OwnNamesGrow(origins, index, done, edge);
  }

  /** Settle one request of queue entry `index`: leave it to the package it already
      finds, or place its source, next to the requester or at the top. */
  method Request(layout: Layout, tree: Path, root: Path, packages0: map<Path, Path>, queue0: seq<Dependency>,
                 index: int, edge: Edge, ghost done: seq<Edge>, ghost origins0: seq<Origin>)
    returns (packages: map<Path, Path>, queue: seq<Dependency>, ghost origins: seq<Origin>)
    requires Working(layout, tree, root, packages0, queue0, origins0, index, done)
    requires ValidName(edge.name) && forall e <- done :: ValidName(e.name) && e.name != edge.name
    requires Requires(layout, queue0[index].source, edge.name, edge.source) && Inside(tree, edge.source)
    ensures Working(layout, tree, root, packages, queue, origins, index, done + [edge])
    ensures queue[index] == queue0[index]
    ensures SettleOne(Work(packages0, queue0), index, edge) == Success(Work(packages, queue))
  {
    packages, queue, origins := packages0, queue0, origins0;
    var owner := queue[index];
    var existing := Accessible(packages, owner.target, edge.name);
    if existing.Some? && packages[existing.value] == edge.source {
      AlreadyServed(layout, tree, root, packages, queue, origins, index, done, edge);
      return;
    }
    var sourceLocal := Inside(owner.source + [MODULES], edge.source);
    var nested := existing.Some? || sourceLocal;
    var target := Slot(if nested then owner.target else [], edge.name);
    PlaceOne(layout, tree, root, packages, queue, origins, index, done, edge, nested);
    assert SettleOne(Work(packages0, queue0), index, edge) == Put(Work(packages0, queue0), edge.source, target);
    var conflict;
    packages, queue, conflict := Add(packages, queue, edge.source, target);
    assert !conflict;  // the placement-conflict error cannot be reached
    origins := origins + [Origin(if nested then index else -1, edge.name)];
  }

  lemma Whole(edges: seq<Edge>)
    ensures edges[0..] == edges[..|edges|] == edges && edges[..0] == edges[|edges|..] == []
  {
  }

  /** The `k`-th request of queue entry `index`, whose requests are `edges`. */
  method RequestAt(layout: Layout, tree: Path, root: Path, packages0: map<Path, Path>, queue0: seq<Dependency>,
                   index: int, edges: seq<Edge>, k: nat, ghost origins0: seq<Origin>)
    returns (packages: map<Path, Path>, queue: seq<Dependency>, ghost origins: seq<Origin>)
    requires k < |edges| && Working(layout, tree, root, packages0, queue0, origins0, index, edges[..k])
    requires EdgesFor(layout, tree, queue0[index].source, edges)
    ensures Working(layout, tree, root, packages, queue, origins, index, edges[..k + 1])
    ensures queue[index] == queue0[index]
    ensures SettleAll(Work(packages0, queue0), index, edges[k..]) == SettleAll(Work(packages, queue), index, edges[k + 1..])
  {
    EdgeAt(layout, queue0[index].source, edges, k);
    assert edges[k] in edges;
    packages, queue, origins := Request(layout, tree, root, packages0, queue0, index, edges[k], edges[..k], origins0);
    SettleNext(Work(packages0, queue0), Work(packages, queue), index, edges, k);
  }

  ghost predicate EdgesFor(layout: Layout, tree: Path, directory: Path, edges: seq<Edge>) {
    && directory in layout && EdgesOf(layout, directory, Names(layout[directory]), edges)
    && forall e <- edges :: Inside(tree, e.source)
  }

  /** Settle every request of queue entry `index`. */
  method Requests(layout: Layout, tree: Path, root: Path, packages0: map<Path, Path>, queue0: seq<Dependency>,
                  index: int, edges: seq<Edge>, ghost origins0: seq<Origin>)
    returns (packages: map<Path, Path>, queue: seq<Dependency>, ghost origins: seq<Origin>)
    requires Working(layout, tree, root, packages0, queue0, origins0, index, [])
    requires EdgesFor(layout, tree, queue0[index].source, edges)
    ensures Working(layout, tree, root, packages, queue, origins, index, edges)
    ensures Settled(layout, root, packages, queue, index + 1)
    ensures SettleAll(Work(packages0, queue0), index, edges) == Success(Work(packages, queue))
  {
    packages, queue, origins := packages0, queue0, origins0;
    Whole(edges);
    for k := 0 to |edges|
      invariant Working(layout, tree, root, packages, queue, origins, index, edges[..k])
      invariant queue[index] == queue0[index]
      invariant SettleAll(Work(packages0, queue0), index, edges) == SettleAll(Work(packages, queue), index, edges[k..])
    {
      packages, queue, origins := RequestAt(layout, tree, root, packages, queue, index, edges, k, origins);
    }
    EntrySettled(layout, tree, root, packages, queue, origins, index, edges);
  }

  lemma SettleNext(before: Work, after: Work, index: nat, edges: seq<Edge>, k: nat)
    requires index < |before.queue| && k < |edges| && SettleOne(before, index, edges[k]) == Success(after)
    ensures SettleAll(before, index, edges[k..]) == SettleAll(after, index, edges[k + 1..])
  {
    assert edges[k..][1..] == edges[k + 1..];
  }

  /** With all its requests settled, an entry is. */
  lemma EntrySettled(layout: Layout, tree: Path, root: Path, packages: map<Path, Path>, queue: seq<Dependency>,
                     origins: seq<Origin>, index: int, edges: seq<Edge>)
    requires Working(layout, tree, root, packages, queue, origins, index, edges)
    requires EdgesFor(layout, tree, queue[index].source, edges)
    ensures Settled(layout, root, packages, queue, index + 1)
  {
    EdgesSettle(layout, queue[index].source, edges, packages, queue[index].target);
  }

  // ---------- the whole algorithm ----------

  /** Something the application needs cannot be laid out. */
  ghost predicate Fault(layout: Layout, tree: Path, root: Path, error: Error) {
    exists d :: Reachable(layout, root, d) && EdgeFault(layout, tree, d, error)
  }

  /** Reserve the slots of the application's own requests. */
  method PlaceDirect(layout: Layout, tree: Path, root: Path, edges: seq<Edge>)
    returns (packages: map<Path, Path>, queue: seq<Dependency>, ghost origins: seq<Origin>)
    requires root in layout && EdgesOf(layout, root, Names(layout[root]), edges)
    requires forall e <- edges :: Inside(tree, e.source)
    ensures Progress(packages, queue, origins, -1, edges) && Satisfied(packages, [], edges)
    ensures AllWanted(layout, tree, root, packages)
    ensures PutDirect(Work(map[], []), edges) == Success(Work(packages, queue))
  {
    packages, queue, origins := map[], [], [];
    RootReachable(layout, root);
    Whole(edges);
    for k := 0 to |edges|
      invariant Progress(packages, queue, origins, -1, edges[..k])
      invariant Satisfied(packages, [], edges[..k])
      invariant AllWanted(layout, tree, root, packages)
      invariant PutDirect(Work(map[], []), edges) == PutDirect(Work(packages, queue), edges[k..])
    {
      EdgeAt(layout, root, edges, k);
      DirectOne(layout, tree, root, packages, queue, origins, edges[..k], edges[k]);
      ghost var before := Work(packages, queue);
      var conflict;
      packages, queue, conflict := Add(packages, queue, edges[k].source, Slot([], edges[k].name));
      assert !conflict;
      origins := origins + [Origin(-1, edges[k].name)];
      PutNext(before, Work(packages, queue), edges, k);
    }
  }

  lemma PutNext(before: Work, after: Work, edges: seq<Edge>, k: nat)
    requires k < |edges| && Put(before, edges[k].source, Slot([], edges[k].name)) == Success(after)
    ensures PutDirect(before, edges[k..]) == PutDirect(after, edges[k + 1..])
  {
    assert edges[k..][1..] == edges[k + 1..];
  }

  lemma DirectOne(layout: Layout, tree: Path, root: Path, packages: map<Path, Path>, queue: seq<Dependency>,
                  origins: seq<Origin>, done: seq<Edge>, edge: Edge)
    requires Progress(packages, queue, origins, -1, done) && Satisfied(packages, [], done)
    requires AllWanted(layout, tree, root, packages)
    requires ValidName(edge.name) && forall e <- done :: ValidName(e.name) && e.name != edge.name
    requires Requires(layout, root, edge.name, edge.source) && Inside(tree, edge.source) && Reachable(layout, root, root)
    ensures var t := Slot([], edge.name);
      && t !in packages
      && Progress(packages[t := edge.source], queue + [Dependency(edge.source, t)], origins + [Origin(-1, edge.name)], -1,
           done + [edge])
      && Satisfied(packages[t := edge.source], [], done + [edge])
      && AllWanted(layout, tree, root, packages[t := edge.source])
  {
    SlotFree(packages, queue, origins, -1, done, edge, false);
    KeepsSatisfied(packages, queue, origins, -1, done, edge, false);
    KeepsProgress(packages, queue, origins, -1, done, edge, false);
    KeepsWanted(layout, tree, root, packages, [], root, edge);
  }

  /** Whatever the tree looks like: every request ends up served, nothing is placed without
      need, a fault is one of a package the application needs, and the fuel runs out only
      when there was more than that to place. */
  method ProductionDependencies(layout: Layout, root: Path, tree: Path, fuel: nat) returns (r: Outcome)
    ensures r == Relayout(layout, root, tree, fuel)
    ensures r.Placed? ==> AllServed(layout, root, r.packages) && AllWanted(layout, tree, root, r.packages)
    // Right for findDependency's walk exactly if no package called node_modules shadows anything,
    ensures r.Placed? ==> (Preserves(layout, root, r.packages) <==> NothingShadowed(layout, r.packages))
    // right for Node's walk exactly if none hides its own dependencies from itself,
    ensures r.Placed? ==> (PreservesForNode(layout, root, r.packages) <==> NothingHidden(layout, r.packages))
    // and so right for both where no such package is needed.
    ensures r.Placed? && NoReservedNames(layout, root) ==>
              Preserves(layout, root, r.packages) && PreservesForNode(layout, root, r.packages)
    ensures r.Failed? ==> Fault(layout, tree, root, r.error)
    ensures r.OutOfFuel? ==> exists packages: map<Path, Path> :: |packages| > fuel && AllWanted(layout, tree, root, packages)
  {
    RootReachable(layout, root);
    var direct := Edges(layout, tree, root);
    if direct.Failure? { return Failed(direct.error); }
    // The application wins its own slots.
    var packages, queue, origins := PlaceDirect(layout, tree, root, direct.value);
    EdgesSettle(layout, root, direct.value, packages, []);
    Advance(packages, queue, origins, -1, direct.value);
    var index := 0;
    while index < |queue|
      invariant Progress(packages, queue, origins, index, [])
      invariant index >= 0 && Settled(layout, root, packages, queue, index)
      invariant AllWanted(layout, tree, root, packages)
      invariant Relayout(layout, root, tree, fuel) == Follow(layout, tree, Work(packages, queue), index, fuel)
      decreases fuel - index
    {
      if index >= fuel { return OutOfFuel; }
      assert Entry(packages, queue, index);
      PlacedReachable(layout, tree, root, packages, queue[index].target);
      var requests := Edges(layout, tree, queue[index].source);
      if requests.Failure? { return Failed(requests.error); }
      packages, queue, origins := Requests(layout, tree, root, packages, queue, index, requests.value, origins);
      Advance(packages, queue, origins, index, requests.value);
      index := index + 1;
    }
    AllEntriesServed(layout, root, packages, queue);
    PreservedUnlessShadowed(layout, tree, root, packages);
    PreservedForNodeUnlessHidden(layout, root, packages);
    if NoReservedNames(layout, root) { PreservedWithoutReserved(layout, tree, root, packages); }
    return Placed(packages);
  }

  lemma AllEntriesServed(layout: Layout, root: Path, packages: map<Path, Path>, queue: seq<Dependency>)
    requires Indexed(packages, queue) && Settled(layout, root, packages, queue, |queue|)
    ensures AllServed(layout, root, packages)
  {
    forall t <- packages ensures ServedAt(layout, packages, packages[t], t) {
      assert Queued(queue, t);
      var j :| 0 <= j < |queue| && queue[j].target == t;
      assert Entry(packages, queue, j);
    }
  }

  /** The fuel is only a bound: with more of it, the outcome is the same. */
  lemma {:induction false} MoreFuel(layout: Layout, tree: Path, w: Work, index: nat, fuel: nat, more: nat)
    requires Follow(layout, tree, w, index, fuel) != OutOfFuel && fuel <= more
    ensures Follow(layout, tree, w, index, more) == Follow(layout, tree, w, index, fuel)
    decreases fuel - index
  {
    if index < |w.queue| && index < fuel {
      var edges := RequestsOf(layout, tree, w.queue[index].source);
      if edges.Success? {
        var next := SettleAll(w, index, edges.value);
        if next.Success? { MoreFuel(layout, tree, next.value, index + 1, fuel, more); }
      }
    }
  }
}

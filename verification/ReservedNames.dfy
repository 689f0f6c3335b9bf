/** A tree with a package called node_modules whose new layout is wrong. */
module ReservedNames {
  import opened Results
  import opened PackageLayout
  import opened ProductionDependencies

  // The name check accepts that name. The new layout means something else than the old one,
  // to findDependency's walk as to Node's.

  // The old tree. The application has a c of its own inside it, the package called
  // node_modules a b of its own.
  const APP: Path := [MODULES, "f"]
  const APP_C: Path := [MODULES, "f", MODULES, "c"]
  const ODD: Path := [MODULES, MODULES]
  const ODD_B: Path := [MODULES, MODULES, MODULES, "b"]
  const B: Path := [MODULES, "b"]
  const C: Path := [MODULES, "c"]
  const ODD_C: Path := [MODULES, MODULES, MODULES, "c"]

  function Needs(names: seq<Path>): Metadata {
    Metadata(names, [], [], [], {})
  }

  const TREE: Layout := map[
    APP := Needs([[MODULES], ["c"]]),
    APP_C := Needs([]),
    ODD := Needs([["b"], ["c"]]),
    ODD_B := Needs([]),
    B := Needs([]),
    C := Needs([["b"]])]

  /** The new tree: the odd package takes the c it needs inside it, next to its own b. */
  const NEW: map<Path, Path> := map[ODD := ODD, C := APP_C, ODD_B := ODD_B, ODD_C := C, B := B]

  // ---------- what the old tree says ----------

  lemma {:induction false} LookUp(present: set<Path>, from: Path, name: Path, l: nat)
    requires l <= |from| && Slot(from[..l], name) in present
    requires forall k :: l < k <= |from| ==> Slot(from[..k], name) !in present
    ensures FindDependency(present, from, name) == Some(Slot(from[..l], name))
    decreases |from|
  {
    assert from[..|from|] == from;
    if l < |from| {
      var up := from[..|from| - 1];
      forall k | 0 <= k <= |up| ensures up[..k] == from[..k] {}
      LookUp(present, up, name, l);
    }
  }

  lemma OldLookups()
    ensures FindDependency(TREE.Keys, APP, [MODULES]) == Some(ODD)
    ensures FindDependency(TREE.Keys, APP, ["c"]) == Some(APP_C)
    ensures FindDependency(TREE.Keys, ODD, ["b"]) == Some(ODD_B)
    ensures FindDependency(TREE.Keys, ODD, ["c"]) == Some(C)
    ensures FindDependency(TREE.Keys, C, ["b"]) == Some(B)
  {
    assert Slot([], [MODULES]) == ODD && Slot([], ["c"]) == C && Slot([], ["b"]) == B;
    assert APP[..0] == ODD[..0] == C[..0] == [];
    assert APP[..1] == ODD[..1] == C[..1] == [MODULES];
    assert APP[..2] == APP && ODD[..2] == ODD && C[..2] == C;
    assert Slot(APP, ["c"]) == APP_C && Slot(ODD, ["b"]) == ODD_B;
    assert Slot(APP, [MODULES])[1..] == ["f", MODULES, MODULES];
    assert |Slot([MODULES], [MODULES])| == |Slot([MODULES], ["c"])| == |Slot([MODULES], ["b"])| == 3;
    LookUp(TREE.Keys, APP, [MODULES], 0);
    LookUp(TREE.Keys, APP, ["c"], 2);
    LookUp(TREE.Keys, ODD, ["b"], 2);
    assert Slot(ODD, ["c"])[3] == "c" && Slot(ODD, ["c"])[1] == MODULES;
    LookUp(TREE.Keys, ODD, ["c"], 0);
    assert Slot(C, ["b"])[1] == "c";
    LookUp(TREE.Keys, C, ["b"], 0);
  }

  lemma NamesOfFew(names: seq<Path>)
    requires |names| <= 2 && (|names| == 2 ==> names[0] != names[1])
    ensures Names(Needs(names)) == names
  {
    assert names + [] + [] + [] == names;
    if |names| > 0 {
      assert Distinct(names[..0]) == [];
      if |names| == 2 {
        assert names[..1][..0] == [];
        assert Distinct(names[..1]) == [names[0]];
      }
    }
  }

  lemma OldRequests()
    ensures RequestsOf(TREE, [MODULES], APP) == Success([Edge([MODULES], ODD), Edge(["c"], APP_C)])
    ensures RequestsOf(TREE, [MODULES], ODD) == Success([Edge(["b"], ODD_B), Edge(["c"], C)])
    ensures RequestsOf(TREE, [MODULES], C) == Success([Edge(["b"], B)])
    ensures RequestsOf(TREE, [MODULES], APP_C) == RequestsOf(TREE, [MODULES], ODD_B) == RequestsOf(TREE, [MODULES], B) == Success([])
  {
    OldLookups();
    NamesOfFew([[MODULES], ["c"]]);
    NamesOfFew([["b"], ["c"]]);
    NamesOfFew([["b"]]);
    NamesOfFew([]);
    TwoRequests(APP, [MODULES], ODD, ["c"], APP_C);
    TwoRequests(ODD, ["b"], ODD_B, ["c"], C);
    OneRequest(C, ["b"], B);
  }

  lemma OneRequest(d: Path, n: Path, s: Path)
    requires d in TREE && ValidName(n) && FindDependency(TREE.Keys, d, n) == Some(s) && [MODULES] <= s
    ensures EdgesFrom(TREE, [MODULES], d, [n]) == Success([Edge(n, s)])
  {
    assert [n][1..] == [] && [Edge(n, s)] + [] == [Edge(n, s)];
    assert EdgesFrom(TREE, [MODULES], d, []) == Success([]);
    assert EdgesFrom(TREE, [MODULES], d, [n][1..]) == Success([]);
  }

  lemma TwoRequests(d: Path, n: Path, s: Path, m: Path, t: Path)
    requires d in TREE && ValidName(n) && FindDependency(TREE.Keys, d, n) == Some(s) && [MODULES] <= s
    requires ValidName(m) && FindDependency(TREE.Keys, d, m) == Some(t) && [MODULES] <= t
    ensures EdgesFrom(TREE, [MODULES], d, [n, m]) == Success([Edge(n, s), Edge(m, t)])
  {
    assert [n, m][1..] == [m];
    OneRequest(d, m, t);
    assert [Edge(n, s)] + [Edge(m, t)] == [Edge(n, s), Edge(m, t)];
  }

  // ---------- the run ----------

  const P2: map<Path, Path> := map[ODD := ODD, C := APP_C]
  const P3: map<Path, Path> := P2[ODD_B := ODD_B]
  const P4: map<Path, Path> := P3[ODD_C := C]
  const Q2: seq<Dependency> := [Dependency(ODD, ODD), Dependency(APP_C, C)]
  const Q3: seq<Dependency> := Q2 + [Dependency(ODD_B, ODD_B)]
  const Q4: seq<Dependency> := Q3 + [Dependency(C, ODD_C)]
  const Q5: seq<Dependency> := Q4 + [Dependency(B, B)]

  /** From inside the odd package the walk that skips sees only the top of the tree. */
  lemma SeenFromInside(packages: map<Path, Path>, name: Path)
    requires ValidName(name)
    ensures Accessible(packages, ODD, name) == if Slot([], name) in packages then Some(Slot([], name)) else None
    ensures Slot(ODD_C, name) !in packages ==>
              Accessible(packages, ODD_C, name) == if Slot([], name) in packages then Some(Slot([], name)) else None
  {
    assert ODD[..1] == [MODULES] && [MODULES][..0] == [];
    assert Accessible(packages, [MODULES], name) == Accessible(packages, [], name);
    assert ODD_C[..3] == [MODULES, MODULES, MODULES] && ODD_C[..3][..2] == ODD;
    assert Accessible(packages, ODD_C[..3], name) == Accessible(packages, ODD, name);
  }

  lemma DirectPlacements()
    ensures PutDirect(Work(map[], []), [Edge([MODULES], ODD), Edge(["c"], APP_C)]) == Success(Work(P2, Q2))
  {
    var edges := [Edge([MODULES], ODD), Edge(["c"], APP_C)];
    assert Slot([], [MODULES]) == ODD && Slot([], ["c"]) == C && ODD[1] != C[1];
    var w1 := Work(map[ODD := ODD], [Dependency(ODD, ODD)]);
    assert [] + [Dependency(ODD, ODD)] == [Dependency(ODD, ODD)];
    assert Put(Work(map[], []), ODD, ODD) == Success(w1);
    assert C !in w1.packages && map[ODD := ODD][C := APP_C] == P2;
    assert [Dependency(ODD, ODD)] + [Dependency(APP_C, C)] == Q2;
    assert Put(w1, APP_C, C) == Success(Work(P2, Q2));
    assert edges[1..] == [edges[1]] && edges[1..][1..] == [];
    assert PutDirect(w1, edges[1..]) == PutDirect(Work(P2, Q2), []);
  }

  lemma OddSettles()
    ensures SettleAll(Work(P2, Q2), 0, [Edge(["b"], ODD_B), Edge(["c"], C)]) == Success(Work(P4, Q4))
  {
    var edges := [Edge(["b"], ODD_B), Edge(["c"], C)];
    assert Slot([], ["b"]) == B && Slot([], ["c"]) == C && ODD[1] != B[1] && B[1] != C[1] && ODD[1] != C[1];
    SeenFromInside(P2, ["b"]);
    SeenFromInside(P3, ["c"]);
    assert Slot(ODD, ["b"]) == ODD_B && Slot(ODD, ["c"]) == ODD_C && ODD_B[3] != ODD_C[3];
    assert ODD + [MODULES] == ODD_B[..3];
    assert SettleOne(Work(P2, Q2), 0, edges[0]) == Success(Work(P3, Q3));
    assert APP_C[1] != C[1];
    assert SettleOne(Work(P3, Q3), 0, edges[1]) == Success(Work(P4, Q4));
    assert edges[1..] == [edges[1]] && edges[1..][1..] == [];
    assert SettleAll(Work(P3, Q3), 0, edges[1..]) == SettleAll(Work(P4, Q4), 0, []);
  }

  lemma OddCSettles()
    ensures SettleAll(Work(P4, Q4), 3, [Edge(["b"], B)]) == Success(Work(NEW, Q5))
  {
    assert Slot([], ["b"]) == B && B[1] != ODD[1] && B[1] != C[1];
    assert |Slot(ODD_C, ["b"])| == 6;
    SeenFromInside(P4, ["b"]);
    assert (C + [MODULES])[1] != B[1];
    assert P4[B := B] == NEW;
    assert SettleOne(Work(P4, Q4), 3, Edge(["b"], B)) == Success(Work(NEW, Q5));
    assert [Edge(["b"], B)][1..] == [];
    assert SettleAll(Work(NEW, Q5), 3, []) == Success(Work(NEW, Q5));
  }

  lemma FirstEntry()
    ensures Follow(TREE, [MODULES], Work(P2, Q2), 0, 5) == Follow(TREE, [MODULES], Work(P4, Q4), 1, 5)
  {
    OldRequests();
    OddSettles();
    FollowOne(Work(P2, Q2), 0, [Edge(["b"], ODD_B), Edge(["c"], C)], Work(P4, Q4));
  }

  lemma NoRequests(w: Work, index: nat)
    requires index < |w.queue| && index < 5
    requires w.queue[index].source == APP_C || w.queue[index].source == ODD_B || w.queue[index].source == B
    ensures Follow(TREE, [MODULES], w, index, 5) == Follow(TREE, [MODULES], w, index + 1, 5)
  {
    NamesOfFew([]);
    FollowOne(w, index, [], w);
  }

  lemma LastEntries()
    ensures Follow(TREE, [MODULES], Work(P4, Q4), 3, 5) == Placed(NEW)
  {
    OldRequests();
    OddCSettles();
    FollowOne(Work(P4, Q4), 3, [Edge(["b"], B)], Work(NEW, Q5));
    NoRequests(Work(NEW, Q5), 4);
    assert |Q5| == 5;
  }

  lemma Start()
    ensures Relayout(TREE, APP, [MODULES], 5) == Follow(TREE, [MODULES], Work(P2, Q2), 0, 5)
  {
    OldRequests();
    DirectPlacements();
  }

  /** The whole run of the worklist over that tree. */
  lemma TheRun()
    ensures Relayout(TREE, APP, [MODULES], 5) == Placed(NEW)
  {
    Start();
    FirstEntry();
    assert Q4[1].source == APP_C && Q4[2].source == ODD_B;
    NoRequests(Work(P4, Q4), 1);
    NoRequests(Work(P4, Q4), 2);
    LastEntries();
  }

  lemma FollowOne(w: Work, index: nat, edges: seq<Edge>, next: Work)
    requires index < |w.queue| && index < 5
    requires RequestsOf(TREE, [MODULES], w.queue[index].source) == Success(edges)
    requires SettleAll(w, index, edges) == Success(next)
    ensures Follow(TREE, [MODULES], w, index, 5) == Follow(TREE, [MODULES], next, index + 1, 5)
  {
  }

  /** The c inside the odd package required the b at the top and finds the odd package's own. */
  lemma WrongB()
    ensures Shadowed(TREE, NEW, ODD_C, ODD, ["b"], B)
  {
    OldLookups();
    assert Slot(ODD, ["b"]) == ODD_B && ODD_C[..2] == ODD;
    assert |Slot(ODD_C, ["b"])| == 6 && |Slot(ODD_C[..3], ["b"])| == 5;
    assert ODD_C[..4] == ODD_C;
    LookUp(NEW.Keys, ODD_C, ["b"], 2);
  }

  /** For Node, the odd package itself does not find its own b, but the one at the top. */
  lemma HiddenB()
    ensures Hidden(TREE, NEW, ODD, ["b"], ODD_B)
  {
    OldLookups();
    assert Slot([], ["b"]) == B && Slot(ODD, ["b"]) == ODD_B;
    SeenFromInside(NEW, ["b"]);
  }

  lemma ReservedNameBreaksLayout()
    ensures Relayout(TREE, APP, [MODULES], 5) == Placed(NEW)
    ensures Shadowed(TREE, NEW, ODD_C, ODD, ["b"], B) && !Preserves(TREE, APP, NEW)
    ensures Hidden(TREE, NEW, ODD, ["b"], ODD_B) && !PreservesForNode(TREE, APP, NEW)
  {
    TheRun();
    WrongB();
    HiddenB();
    assert !Found(NEW, ODD_C, ["b"], B);
  }
}

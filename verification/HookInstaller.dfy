/** Installing ftown's hooks into a settings file the user also edits.

    A settings file has a list of groups for each event; a group has a matcher and a list of
    hooks. Earlier versions of a hook are recognised by their command. One kind of upsert takes
    the first version wherever it is and repairs it; the other wants exactly one version, under
    a given matcher, and takes all others out. The functions say what becomes of a list, the
    class at the end does it with loops, in place. */
module HookInstaller {
  import opened Results

  const ASK_HOOK_TIMEOUT_SECONDS: int := 3600
  const PUMP_TIMEOUT_SECONDS: int := 30

  /** A hook with a command, its other fields in `rest`; or anything else in a hook list. */
  datatype Hook =
    | Hook(command: string, timeout: Option<int>, background: Option<bool>, rest: nat)
    | Alien(value: nat)

  datatype Matcher = Absent | Text(text: string) | Odd(value: nat)

  /** A group with a hook list, its other fields in `rest`; or anything else in an event's list. */
  datatype Group =
    | Group(matcher: Matcher, hooks: seq<Hook>, rest: nat)
    | Opaque(value: nat)

  datatype Fix = CommandOnly | CommandTimeoutBackground

  /** What is to be installed: how to tell an earlier version of it, and how to repair one. */
  datatype Spec = Spec(matches: string -> bool, desired: Hook, fix: Fix)

  predicate Usable(spec: Spec) {
    spec.desired.Hook? && spec.matches(spec.desired.command) && Repaired(spec, spec.desired) == spec.desired
  }

  predicate Matches(spec: Spec, h: Hook) {
    h.Hook? && spec.matches(h.command)
  }

  /** What repairing leaves of a hook; it changed something if that differs. */
  function Repaired(spec: Spec, h: Hook): Hook {
    if h.Alien? || spec.desired.Alien? then h
    else if spec.fix == CommandOnly then h.(command := spec.desired.command)
    else h.(command := spec.desired.command, timeout := spec.desired.timeout, background := None)
  }

  predicate In(g: Group, target: string) {
    g.Group? && (g.matcher == Text(target) || (g.matcher == Absent && target == ""))
  }

  // ---------- the matcher-aware upsert ----------

  datatype Cleaned<T> = Cleaned(items: seq<T>, found: bool, changed: bool)

  /** The inner loop, from the last hook down: the first match met in a target group is
      repaired and stays, every other match goes. */
  function CleanHooks(spec: Spec, hooks: seq<Hook>, inTarget: bool, found: bool): Cleaned<Hook> {
    if hooks == [] then Cleaned([], found, false)
    else
      var h := hooks[|hooks| - 1];
      if !Matches(spec, h) then
        var r := CleanHooks(spec, hooks[..|hooks| - 1], inTarget, found);
        r.(items := r.items + [h])
      else if inTarget && !found then
        var r := CleanHooks(spec, hooks[..|hooks| - 1], inTarget, true);
        Cleaned(r.items + [Repaired(spec, h)], r.found, r.changed || Repaired(spec, h) != h)
      else
        CleanHooks(spec, hooks[..|hooks| - 1], inTarget, found).(changed := true)
  }

  function CleanGroup(spec: Spec, target: string, g: Group, found: bool): Cleaned<Group> {
    if g.Opaque? then Cleaned([g], found, false)
    else
      var r := CleanHooks(spec, g.hooks, In(g, target), found);
      Cleaned(if r.items == [] && g.hooks != [] then [] else [g.(hooks := r.items)], r.found, r.changed)
  }

  function CleanList(spec: Spec, target: string, list: seq<Group>, found: bool): Cleaned<Group> {
    if list == [] then Cleaned([], found, false)
    else
      var g := CleanGroup(spec, target, list[|list| - 1], found);
      var r := CleanList(spec, target, list[..|list| - 1], g.found);
      Cleaned(r.items + g.items, r.found, g.changed || r.changed)
  }

  function Place(spec: Spec, target: string, list: seq<Group>): seq<Group> {
    if list == [] then [Group(Text(target), [spec.desired], 0)]
    else if In(list[0], target) then [list[0].(hooks := list[0].hooks + [spec.desired])] + list[1..]
    else [list[0]] + Place(spec, target, list[1..])
  }

  datatype Tally = Added | Repaired_ | Kept

  function UpsertIn(spec: Spec, target: string, list: seq<Group>): (seq<Group>, Tally) {
    var c := CleanList(spec, target, list, false);
    if c.found then (c.items, if c.changed then Repaired_ else Kept)
    else (Place(spec, target, c.items), if c.changed then Repaired_ else Added)
  }

  // ---------- the user's hooks, and ours ----------

  /** The hooks of a list that are not versions of this one. */
  function Others(spec: Spec, hooks: seq<Hook>): seq<Hook> {
    if hooks == [] then []
    else
      var h := hooks[|hooks| - 1];
      Others(spec, hooks[..|hooks| - 1]) + if Matches(spec, h) then [] else [h]
  }

  function YoursOf(spec: Spec, g: Group): seq<Group> {
    if g.Opaque? then [g]
    else if Others(spec, g.hooks) == [] then []
    else [g.(hooks := Others(spec, g.hooks))]
  }

  /** Everything in an event's list that is not ours: groups with their matcher, their other
      fields and their hooks in order, and whatever is not a group. */
  function Yours(spec: Spec, list: seq<Group>): seq<Group> {
    if list == [] then [] else Yours(spec, list[..|list| - 1]) + YoursOf(spec, list[|list| - 1])
  }

  /** A version of this hook, and whether it is where it belongs. */
  datatype Mine = Mine(placed: bool, hook: Hook)

  function MineIn(spec: Spec, hooks: seq<Hook>, placed: bool): seq<Mine> {
    if hooks == [] then []
    else
      var h := hooks[|hooks| - 1];
      MineIn(spec, hooks[..|hooks| - 1], placed) + if Matches(spec, h) then [Mine(placed, h)] else []
  }

  function OursOf(spec: Spec, target: string, g: Group): seq<Mine> {
    if g.Opaque? then [] else MineIn(spec, g.hooks, In(g, target))
  }

  function Ours(spec: Spec, target: string, list: seq<Group>): seq<Mine> {
    if list == [] then []
    else Ours(spec, target, list[..|list| - 1]) + OursOf(spec, target, list[|list| - 1])
  }

  /** Installed: one version, where it belongs, with the fields it should have. */
  predicate Settled(spec: Spec, ours: seq<Mine>) {
    |ours| == 1 && ours[0].placed && Repaired(spec, ours[0].hook) == ours[0].hook
  }

  lemma {:induction false} CleanHooksKeepsOthers(spec: Spec, hooks: seq<Hook>, inTarget: bool, found: bool)
    requires Usable(spec)
    ensures Others(spec, CleanHooks(spec, hooks, inTarget, found).items) == Others(spec, hooks)
  {
    if hooks != [] {
      var h := hooks[|hooks| - 1];
      var init := hooks[..|hooks| - 1];
      CleanHooksKeepsOthers(spec, init, inTarget, found || (Matches(spec, h) && inTarget));
      var before := CleanHooks(spec, init, inTarget, found || (Matches(spec, h) && inTarget)).items;
      assert (before + [h])[..|before|] == before;
      assert (before + [Repaired(spec, h)])[..|before|] == before;
    }
  }

  /** A list without versions is left alone; so is one with a single settled version. */
  lemma {:induction false} CleanHooksLeaves(spec: Spec, hooks: seq<Hook>, inTarget: bool, found: bool)
    ensures MineIn(spec, hooks, inTarget) == [] ==> CleanHooks(spec, hooks, inTarget, found) == Cleaned(hooks, found, false)
    ensures !found && Settled(spec, MineIn(spec, hooks, inTarget)) ==>
              CleanHooks(spec, hooks, inTarget, found) == Cleaned(hooks, true, false)
  {
    if hooks != [] {
      var h := hooks[|hooks| - 1];
      var init := hooks[..|hooks| - 1];
      assert hooks == init + [h];
      CleanHooksLeaves(spec, init, inTarget, found);
      CleanHooksLeaves(spec, init, inTarget, true);
    }
  }

  /** What cleaning leaves of our versions in one hook list. */
  lemma {:induction false} CleanHooksLeavesOne(spec: Spec, hooks: seq<Hook>, inTarget: bool, found: bool)
    requires Usable(spec)
    ensures var r := CleanHooks(spec, hooks, inTarget, found);
            && (found ==> r.found)
            && (r.found && !found ==> inTarget && Settled(spec, MineIn(spec, r.items, inTarget)))
            && (r.found == found ==> MineIn(spec, r.items, inTarget) == [])
  {
    if hooks != [] {
      var h := hooks[|hooks| - 1];
      var init := hooks[..|hooks| - 1];
      var f := found || (Matches(spec, h) && inTarget);
      CleanHooksLeavesOne(spec, init, inTarget, f);
      var before := CleanHooks(spec, init, inTarget, f).items;
      assert (before + [h])[..|before|] == before;
      assert (before + [Repaired(spec, h)])[..|before|] == before;
    }
  }

  lemma YoursLast(spec: Spec, init: seq<Group>, g: Group)
    ensures Yours(spec, init + [g]) == Yours(spec, init) + YoursOf(spec, g)
  {
    assert (init + [g])[..|init|] == init;
  }

  lemma {:induction false} YoursJoin(spec: Spec, a: seq<Group>, b: seq<Group>)
    ensures Yours(spec, a + b) == Yours(spec, a) + Yours(spec, b)
  {
    if b == [] {
      assert a + b == a;
    } else {
      var init, g := b[..|b| - 1], b[|b| - 1];
      assert a + b == (a + init) + [g];
      YoursLast(spec, a + init, g);
      YoursJoin(spec, a, init);
    }
  }

  lemma OursLast(spec: Spec, target: string, init: seq<Group>, g: Group)
    ensures Ours(spec, target, init + [g]) == Ours(spec, target, init) + OursOf(spec, target, g)
  {
    assert (init + [g])[..|init|] == init;
  }

  lemma {:induction false} OursJoin(spec: Spec, target: string, a: seq<Group>, b: seq<Group>)
    ensures Ours(spec, target, a + b) == Ours(spec, target, a) + Ours(spec, target, b)
  {
    if b == [] {
      assert a + b == a;
    } else {
      var init, g := b[..|b| - 1], b[|b| - 1];
      assert a + b == (a + init) + [g];
      OursLast(spec, target, a + init, g);
      OursJoin(spec, target, a, init);
    }
  }

  lemma YoursOne(spec: Spec, g: Group)
    ensures Yours(spec, [g]) == YoursOf(spec, g)
  {
    assert [g][..0] == [];
  }

  lemma OursOne(spec: Spec, target: string, g: Group)
    ensures Ours(spec, target, [g]) == OursOf(spec, target, g)
  {
    assert [g][..0] == [];
  }

  lemma CleanGroupKeepsYours(spec: Spec, target: string, g: Group, found: bool)
    requires Usable(spec)
    ensures Yours(spec, CleanGroup(spec, target, g, found).items) == YoursOf(spec, g)
  {
    if g.Opaque? {
      YoursOne(spec, g);
    } else {
      var r := CleanHooks(spec, g.hooks, In(g, target), found);
      CleanHooksKeepsOthers(spec, g.hooks, In(g, target), found);
      YoursOne(spec, g.(hooks := r.items));
    }
  }

  lemma {:induction false} CleanListKeepsYours(spec: Spec, target: string, list: seq<Group>, found: bool)
    requires Usable(spec)
    ensures Yours(spec, CleanList(spec, target, list, found).items) == Yours(spec, list)
  {
    if list != [] {
      var g := CleanGroup(spec, target, list[|list| - 1], found);
      CleanGroupKeepsYours(spec, target, list[|list| - 1], found);
      CleanListKeepsYours(spec, target, list[..|list| - 1], g.found);
      YoursJoin(spec, CleanList(spec, target, list[..|list| - 1], g.found).items, g.items);
    }
  }

  lemma CleanGroupLeavesOne(spec: Spec, target: string, g: Group, found: bool)
    requires Usable(spec)
    ensures var r := CleanGroup(spec, target, g, found);
            && (found ==> r.found)
            && (r.found && !found ==> Settled(spec, Ours(spec, target, r.items)))
            && (r.found == found ==> Ours(spec, target, r.items) == [])
  {
    if g.Opaque? {
      OursOne(spec, target, g);
    } else {
      var r := CleanHooks(spec, g.hooks, In(g, target), found);
      CleanHooksLeavesOne(spec, g.hooks, In(g, target), found);
      OursOne(spec, target, g.(hooks := r.items));
    }
  }

  lemma {:induction false} CleanListLeavesOne(spec: Spec, target: string, list: seq<Group>, found: bool)
    requires Usable(spec)
    ensures var r := CleanList(spec, target, list, found);
            && (found ==> r.found)
            && (r.found && !found ==> Settled(spec, Ours(spec, target, r.items)))
            && (r.found == found ==> Ours(spec, target, r.items) == [])
  {
    if list != [] {
      var g := CleanGroup(spec, target, list[|list| - 1], found);
      CleanGroupLeavesOne(spec, target, list[|list| - 1], found);
      CleanListLeavesOne(spec, target, list[..|list| - 1], g.found);
      OursJoin(spec, target, CleanList(spec, target, list[..|list| - 1], g.found).items, g.items);
    }
  }

  lemma CleanGroupLeaves(spec: Spec, target: string, g: Group, found: bool)
    ensures OursOf(spec, target, g) == [] ==> CleanGroup(spec, target, g, found) == Cleaned([g], found, false)
    ensures !found && Settled(spec, OursOf(spec, target, g)) ==> CleanGroup(spec, target, g, found) == Cleaned([g], true, false)
  {
    if g.Group? { CleanHooksLeaves(spec, g.hooks, In(g, target), found); }
  }

  lemma {:induction false} CleanListLeaves(spec: Spec, target: string, list: seq<Group>, found: bool)
    ensures Ours(spec, target, list) == [] ==> CleanList(spec, target, list, found) == Cleaned(list, found, false)
    ensures !found && Settled(spec, Ours(spec, target, list)) ==>
              CleanList(spec, target, list, found) == Cleaned(list, true, false)
  {
    if list != [] {
      var last := list[|list| - 1];
      assert list == list[..|list| - 1] + [last];
      CleanGroupLeaves(spec, target, last, found);
      CleanListLeaves(spec, target, list[..|list| - 1], found);
      CleanListLeaves(spec, target, list[..|list| - 1], true);
    }
  }

  lemma {:induction false} PlaceAddsOurs(spec: Spec, target: string, list: seq<Group>)
    requires Usable(spec) && Ours(spec, target, list) == []
    ensures Yours(spec, Place(spec, target, list)) == Yours(spec, list)
    ensures Ours(spec, target, Place(spec, target, list)) == [Mine(true, spec.desired)]
  {
    var placed := Place(spec, target, list);
    if list == [] {
      OnlyOurs(spec, target, Group(Text(target), [], 0));
      YoursOne(spec, placed[0]);
      OursOne(spec, target, placed[0]);
    } else {
      assert list == [list[0]] + list[1..];
      OursJoin(spec, target, [list[0]], list[1..]);
      YoursJoin(spec, [list[0]], list[1..]);
      OursOne(spec, target, list[0]);
      YoursOne(spec, list[0]);
      if In(list[0], target) {
        var g := list[0].(hooks := list[0].hooks + [spec.desired]);
        OnlyOurs(spec, target, list[0]);
        OursJoin(spec, target, [g], list[1..]);
        YoursJoin(spec, [g], list[1..]);
        OursOne(spec, target, g);
        YoursOne(spec, g);
      } else {
        var rest := Place(spec, target, list[1..]);
        PlaceAddsOurs(spec, target, list[1..]);
        OursJoin(spec, target, [list[0]], rest);
        YoursJoin(spec, [list[0]], rest);
      }
    }
  }

  /** Adding the hook to a group that has no version of it. */
  lemma OnlyOurs(spec: Spec, target: string, g: Group)
    requires Usable(spec) && In(g, target) && OursOf(spec, target, g) == []
    ensures OursOf(spec, target, g.(hooks := g.hooks + [spec.desired])) == [Mine(true, spec.desired)]
    ensures YoursOf(spec, g.(hooks := g.hooks + [spec.desired])) == YoursOf(spec, g)
  {
    assert (g.hooks + [spec.desired])[..|g.hooks|] == g.hooks;
    assert Others(spec, g.hooks + [spec.desired]) == Others(spec, g.hooks);
  }

  // ---------- what the matcher-aware upsert promises ----------

  /** Whatever was in the list: afterwards there is exactly one version of the hook, under
      the target matcher, with the command, timeout and background it should have. */
  lemma ExactlyOneInstalled(spec: Spec, target: string, list: seq<Group>)
    requires Usable(spec)
    ensures Settled(spec, Ours(spec, target, UpsertIn(spec, target, list).0))
  {
    CleanListLeavesOne(spec, target, list, false);
    var c := CleanList(spec, target, list, false);
    if !c.found { PlaceAddsOurs(spec, target, c.items); }
  }

  /** The user's own hooks stay, under their matchers, in their order. */
  lemma YoursStay(spec: Spec, target: string, list: seq<Group>)
    requires Usable(spec)
    ensures Yours(spec, UpsertIn(spec, target, list).0) == Yours(spec, list)
  {
    CleanListKeepsYours(spec, target, list, false);
    CleanListLeavesOne(spec, target, list, false);
    var c := CleanList(spec, target, list, false);
    if !c.found { PlaceAddsOurs(spec, target, c.items); }
  }

  /** The list is left alone, and counted as kept, exactly when the hook was installed. */
  lemma KeptIfSettled(spec: Spec, target: string, list: seq<Group>)
    requires Usable(spec)
    ensures Settled(spec, Ours(spec, target, list)) <==> UpsertIn(spec, target, list).0 == list
    ensures Settled(spec, Ours(spec, target, list)) <==> UpsertIn(spec, target, list).1 == Kept
  {
    ExactlyOneInstalled(spec, target, list);
    CleanListLeaves(spec, target, list, false);
    CleanListLeavesOne(spec, target, list, false);
    UnchangedIsSame(spec, target, list, false);
  }

  /** Cleaning that changed nothing returns what it got. */
  lemma {:induction false} UnchangedIsSame(spec: Spec, target: string, list: seq<Group>, found: bool)
    ensures !CleanList(spec, target, list, found).changed ==> CleanList(spec, target, list, found).items == list
  {
    if list != [] {
      var last := list[|list| - 1];
      assert list == list[..|list| - 1] + [last];
      if last.Group? { UnchangedHooks(spec, last.hooks, In(last, target), found); }
      UnchangedIsSame(spec, target, list[..|list| - 1], CleanGroup(spec, target, last, found).found);
    }
  }

  lemma {:induction false} UnchangedHooks(spec: Spec, hooks: seq<Hook>, inTarget: bool, found: bool)
    ensures !CleanHooks(spec, hooks, inTarget, found).changed ==> CleanHooks(spec, hooks, inTarget, found).items == hooks
  {
    if hooks != [] {
      var h := hooks[|hooks| - 1];
      assert hooks == hooks[..|hooks| - 1] + [h];
      UnchangedHooks(spec, hooks[..|hooks| - 1], inTarget, found || (Matches(spec, h) && inTarget));
    }
  }

  /** Running the installation again changes nothing. */
  lemma SecondRunChangesNothing(spec: Spec, target: string, list: seq<Group>)
    requires Usable(spec)
    ensures var once := UpsertIn(spec, target, list).0; UpsertIn(spec, target, once) == (once, Kept)
  {
    ExactlyOneInstalled(spec, target, list);
    KeptIfSettled(spec, target, UpsertIn(spec, target, list).0);
  }

  // ---------- the upsert that takes a hook wherever it is ----------

  /** The index of the first version in a hook list, or its length. */
  function FirstHook(spec: Spec, hooks: seq<Hook>): (r: nat)
    ensures r <= |hooks|
    ensures r < |hooks| ==> Matches(spec, hooks[r])
    ensures forall i :: 0 <= i < r ==> !Matches(spec, hooks[i])
  {
    if hooks == [] || Matches(spec, hooks[0]) then 0 else 1 + FirstHook(spec, hooks[1..])
  }

  predicate Holds(spec: Spec, g: Group) {
    g.Group? && FirstHook(spec, g.hooks) < |g.hooks|
  }

  /** The index of the first group with a version, or the length of the list. */
  function FirstGroup(spec: Spec, list: seq<Group>): (r: nat)
    ensures r <= |list|
    ensures r < |list| ==> Holds(spec, list[r])
    ensures forall i :: 0 <= i < r ==> !Holds(spec, list[i])
  {
    if list == [] || Holds(spec, list[0]) then 0 else 1 + FirstGroup(spec, list[1..])
  }

  function First(spec: Spec, list: seq<Group>): (r: Option<Hook>)
    ensures r.Some? ==> r.value.Hook? && spec.matches(r.value.command)
  {
    var gi := FirstGroup(spec, list);
    if gi == |list| then None else Some(list[gi].hooks[FirstHook(spec, list[gi].hooks)])
  }

  function UpsertAny(spec: Spec, list: seq<Group>): (seq<Group>, Tally) {
    var gi := FirstGroup(spec, list);
    if gi == |list| then (list + [Group(Text(""), [spec.desired], 0)], Added)
    else
      var hooks := list[gi].hooks;
      var hi := FirstHook(spec, hooks);
      var h := Repaired(spec, hooks[hi]);
      (list[gi := list[gi].(hooks := hooks[hi := h])], if h == hooks[hi] then Kept else Repaired_)
  }

  predicate FirstSettled(spec: Spec, list: seq<Group>) {
    First(spec, list).Some? && Repaired(spec, First(spec, list).value) == First(spec, list).value
  }

  lemma FirstHookIs(spec: Spec, hooks: seq<Hook>, k: nat)
    requires k < |hooks| && Matches(spec, hooks[k]) && forall i :: 0 <= i < k ==> !Matches(spec, hooks[i])
    ensures FirstHook(spec, hooks) == k
  {
  }

  lemma FirstGroupIs(spec: Spec, list: seq<Group>, k: nat)
    requires k < |list| && Holds(spec, list[k]) && forall i :: 0 <= i < k ==> !Holds(spec, list[i])
    ensures FirstGroup(spec, list) == k
  {
  }

  /** Afterwards the first version of the hook has the fields it should have; a list where
      that was so already is the only one left alone and counted as kept. */
  lemma FirstIsSettled(spec: Spec, list: seq<Group>)
    requires Usable(spec)
    ensures FirstSettled(spec, UpsertAny(spec, list).0)
    ensures FirstSettled(spec, list) <==> UpsertAny(spec, list).0 == list
    ensures FirstSettled(spec, list) <==> UpsertAny(spec, list).1 == Kept
  {
    var after := UpsertAny(spec, list).0;
    var gi := FirstGroup(spec, list);
    if gi == |list| {
      FirstHookIs(spec, after[gi].hooks, 0);
      FirstGroupIs(spec, after, gi);
    } else {
      var hi := FirstHook(spec, list[gi].hooks);
      FirstHookIs(spec, after[gi].hooks, hi);
      FirstGroupIs(spec, after, gi);
      assert after[gi].hooks[hi] == Repaired(spec, list[gi].hooks[hi]);
      if FirstSettled(spec, list) { assert after[gi].hooks == list[gi].hooks; assert after == list; }
    }
  }

  lemma SecondRunKeepsAny(spec: Spec, list: seq<Group>)
    requires Usable(spec)
    ensures var once := UpsertAny(spec, list).0; UpsertAny(spec, once) == (once, Kept)
  {
    FirstIsSettled(spec, list);
    FirstIsSettled(spec, UpsertAny(spec, list).0);
  }

  /** At most one hook changes, and only a version of this one; else one group is added at
      the end. So the user's hooks stay here too. */
  lemma YoursStayAny(spec: Spec, list: seq<Group>)
    requires Usable(spec)
    ensures Yours(spec, UpsertAny(spec, list).0) == Yours(spec, list)
  {
    var after := UpsertAny(spec, list).0;
    var gi := FirstGroup(spec, list);
    if gi == |list| {
      YoursJoin(spec, list, [after[gi]]);
      YoursOne(spec, after[gi]);
      assert Others(spec, [spec.desired]) == [] by { assert [spec.desired][..0] == []; }
    } else {
      var hi := FirstHook(spec, list[gi].hooks);
      OthersSkip(spec, list[gi].hooks, hi, after[gi].hooks[hi]);
      assert YoursOf(spec, after[gi]) == YoursOf(spec, list[gi]);
      YoursSwap(spec, list, gi, after[gi]);
    }
  }

  lemma YoursSwap(spec: Spec, list: seq<Group>, k: nat, g: Group)
    requires k < |list| && YoursOf(spec, g) == YoursOf(spec, list[k])
    ensures Yours(spec, list[k := g]) == Yours(spec, list)
  {
    YoursSplit(spec, list, k);
    YoursSplit(spec, list[k := g], k);
    assert list[k := g][..k] == list[..k] && list[k := g][k + 1..] == list[k + 1..];
  }

  lemma YoursSplit(spec: Spec, list: seq<Group>, k: nat)
    requires k < |list|
    ensures Yours(spec, list) == Yours(spec, list[..k]) + YoursOf(spec, list[k]) + Yours(spec, list[k + 1..])
  {
    assert list == list[..k] + [list[k]] + list[k + 1..];
    YoursJoin(spec, list[..k] + [list[k]], list[k + 1..]);
    YoursJoin(spec, list[..k], [list[k]]);
    YoursOne(spec, list[k]);
  }

  lemma {:induction false} OthersSkip(spec: Spec, hooks: seq<Hook>, k: nat, h: Hook)
    requires k < |hooks| && Matches(spec, hooks[k]) && Matches(spec, h)
    ensures Others(spec, hooks[k := h]) == Others(spec, hooks)
  {
    var init := hooks[..|hooks| - 1];
    if k < |init| {
      assert hooks[k := h][..|init|] == init[k := h];
      OthersSkip(spec, init, k, h);
    } else {
      assert hooks[k := h][..|init|] == init;
    }
  }

  // ---------- several hooks in one list ----------

  /** The first version, seen from the list of versions. */
  lemma FirstIsHead(spec: Spec, list: seq<Group>)
    ensures First(spec, list).None? <==> Ours(spec, "", list) == []
    ensures First(spec, list).Some? ==> Ours(spec, "", list)[0].hook == First(spec, list).value
  {
    var gi := FirstGroup(spec, list);
    NoneHeld(spec, list[..gi]);
    if gi < |list| {
      OursSplit(spec, list, gi);
      FirstHookIsHead(spec, list[gi].hooks, In(list[gi], ""));
      assert OursOf(spec, "", list[gi])[0].hook == First(spec, list).value;
    } else {
      assert list[..gi] == list;
    }
  }

  lemma OursSplit(spec: Spec, list: seq<Group>, k: nat)
    requires k < |list|
    ensures Ours(spec, "", list) == Ours(spec, "", list[..k]) + OursOf(spec, "", list[k]) + Ours(spec, "", list[k + 1..])
  {
    assert list == list[..k] + [list[k]] + list[k + 1..];
    OursJoin(spec, "", list[..k] + [list[k]], list[k + 1..]);
    OursJoin(spec, "", list[..k], [list[k]]);
    OursOne(spec, "", list[k]);
  }

  lemma {:induction false} NoneHeld(spec: Spec, list: seq<Group>)
    requires forall i :: 0 <= i < |list| ==> !Holds(spec, list[i])
    ensures Ours(spec, "", list) == []
  {
    if list != [] {
      NoneHeld(spec, list[..|list| - 1]);
      var last := list[|list| - 1];
      if last.Group? { FirstHookIsHead(spec, last.hooks, In(last, "")); }
    }
  }

  lemma {:induction false} FirstHookIsHead(spec: Spec, hooks: seq<Hook>, placed: bool)
    ensures FirstHook(spec, hooks) == |hooks| <==> MineIn(spec, hooks, placed) == []
    ensures FirstHook(spec, hooks) < |hooks| ==> MineIn(spec, hooks, placed)[0].hook == hooks[FirstHook(spec, hooks)]
  {
    if hooks != [] {
      var init := hooks[..|hooks| - 1];
      FirstHookIsHead(spec, init, placed);
      var k := FirstHook(spec, init);
      assert forall i :: 0 <= i < |init| ==> hooks[i] == init[i];
      if k < |init| {
        FirstHookIs(spec, hooks, k);
      } else if Matches(spec, hooks[k]) {
        FirstHookIs(spec, hooks, k);
      } else {
        assert FirstHook(spec, hooks) == |hooks|;
      }
    }
  }

  /** Two hooks that are never taken for each other once installed. */
  predicate Apart(a: Spec, b: Spec) {
    && Usable(a) && Usable(b)
    && !a.matches(b.desired.command) && !b.matches(a.desired.command)
  }

  /** The versions of `a` that could not be taken for `b`. */
  function But(a: Spec, b: Spec): Spec {
    a.(matches := command => a.matches(command) && !b.matches(command))
  }

  lemma {:induction false} CleanHooksSpares(a: Spec, b: Spec, hooks: seq<Hook>, inTarget: bool, found: bool, placed: bool)
    requires Apart(a, b)
    ensures MineIn(a, CleanHooks(b, hooks, inTarget, found).items, placed) == MineIn(But(a, b), hooks, placed)
  {
    if hooks != [] {
      var h := hooks[|hooks| - 1];
      var init := hooks[..|hooks| - 1];
      var f := found || (Matches(b, h) && inTarget);
      CleanHooksSpares(a, b, init, inTarget, f, placed);
      var before := CleanHooks(b, init, inTarget, f).items;
      assert (before + [h])[..|before|] == before;
      assert (before + [Repaired(b, h)])[..|before|] == before;
    }
  }

  lemma {:induction false} CleanListSpares(a: Spec, b: Spec, target: string, list: seq<Group>, found: bool)
    requires Apart(a, b)
    ensures Ours(a, "", CleanList(b, target, list, found).items) == Ours(But(a, b), "", list)
  {
    if list != [] {
      var last := list[|list| - 1];
      var g := CleanGroup(b, target, last, found);
      CleanListSpares(a, b, target, list[..|list| - 1], g.found);
      OursJoin(a, "", CleanList(b, target, list[..|list| - 1], g.found).items, g.items);
      if last.Opaque? {
        OursOne(a, "", last);
      } else {
        var r := CleanHooks(b, last.hooks, In(last, target), found);
        CleanHooksSpares(a, b, last.hooks, In(last, target), found, In(last, ""));
        OursOne(a, "", last.(hooks := r.items));
      }
    }
  }

  lemma {:induction false} PlaceSpares(a: Spec, b: Spec, target: string, list: seq<Group>)
    requires Apart(a, b)
    ensures Ours(a, "", Place(b, target, list)) == Ours(a, "", list)
  {
    if list == [] {
      var g := Place(b, target, list)[0];
      OursOne(a, "", g);
      assert g.hooks == [b.desired] && g.hooks[..0] == [];
      assert MineIn(a, g.hooks[..0], In(g, "")) == [];
    } else {
      assert list == [list[0]] + list[1..];
      OursJoin(a, "", [list[0]], list[1..]);
      OursOne(a, "", list[0]);
      if In(list[0], target) {
        var g := list[0].(hooks := list[0].hooks + [b.desired]);
        assert g.hooks[..|g.hooks| - 1] == list[0].hooks;
        OursJoin(a, "", [g], list[1..]);
        OursOne(a, "", g);
      } else {
        PlaceSpares(a, b, target, list[1..]);
        OursJoin(a, "", [list[0]], Place(b, target, list[1..]));
      }
    }
  }

  lemma {:induction false} HeadStaysIn(a: Spec, b: Spec, hooks: seq<Hook>, placed: bool)
    requires MineIn(a, hooks, placed) != [] && !Matches(b, MineIn(a, hooks, placed)[0].hook)
    ensures MineIn(But(a, b), hooks, placed) != []
    ensures MineIn(But(a, b), hooks, placed)[0] == MineIn(a, hooks, placed)[0]
  {
    var init := hooks[..|hooks| - 1];
    if MineIn(a, init, placed) != [] { HeadStaysIn(a, b, init, placed); } else { NoneBut(a, b, init, placed); }
  }

  lemma {:induction false} NoneBut(a: Spec, b: Spec, hooks: seq<Hook>, placed: bool)
    requires MineIn(a, hooks, placed) == []
    ensures MineIn(But(a, b), hooks, placed) == []
  {
    if hooks != [] { NoneBut(a, b, hooks[..|hooks| - 1], placed); }
  }

  lemma {:induction false} HeadStays(a: Spec, b: Spec, list: seq<Group>)
    requires Ours(a, "", list) != [] && !Matches(b, Ours(a, "", list)[0].hook)
    ensures Ours(But(a, b), "", list) != [] && Ours(But(a, b), "", list)[0] == Ours(a, "", list)[0]
  {
    var init := list[..|list| - 1];
    var last := list[|list| - 1];
    if Ours(a, "", init) != [] {
      HeadStays(a, b, init);
    } else {
      NoneButList(a, b, init);
      HeadStaysIn(a, b, last.hooks, In(last, ""));
    }
  }

  lemma {:induction false} NoneButList(a: Spec, b: Spec, list: seq<Group>)
    requires Ours(a, "", list) == []
    ensures Ours(But(a, b), "", list) == []
  {
    if list != [] {
      var last := list[|list| - 1];
      NoneButList(a, b, list[..|list| - 1]);
      if last.Group? { NoneBut(a, b, last.hooks, In(last, "")); }
    }
  }

  /** Installing another hook does not disturb one that is installed. */
  lemma StaysSettledIn(a: Spec, b: Spec, target: string, list: seq<Group>)
    requires Apart(a, b) && FirstSettled(a, list)
    ensures FirstSettled(a, UpsertIn(b, target, list).0)
  {
    FirstIsHead(a, list);
    HeadStays(a, b, list);
    var c := CleanList(b, target, list, false);
    CleanListSpares(a, b, target, list, false);
    if !c.found { PlaceSpares(a, b, target, c.items); }
    FirstIsHead(a, UpsertIn(b, target, list).0);
  }

  lemma StaysSettledAny(a: Spec, b: Spec, list: seq<Group>)
    requires Apart(a, b) && FirstSettled(a, list)
    ensures FirstSettled(a, UpsertAny(b, list).0)
  {
    var after := UpsertAny(b, list).0;
    var ai := FirstGroup(a, list);
    var hi := FirstHook(a, list[ai].hooks);
    assert !Matches(b, list[ai].hooks[hi]);
    var bi := FirstGroup(b, list);
    if bi < |list| {
      var bh := FirstHook(b, list[bi].hooks);
      forall i | 0 <= i < ai ensures !Holds(a, after[i]) {
        if i == bi {
          assert forall j :: 0 <= j < |after[i].hooks| ==> !Matches(a, after[i].hooks[j]);
        }
      }
      FirstHookIs(a, after[ai].hooks, hi);
    }
    FirstGroupIs(a, after, ai);
  }

  // ---------- the installation ----------

  datatype Event =
    Notification | Stop | SessionEnd | PreToolUse | PostToolUse | UserPromptSubmit | SessionStart | Another(name: string)

  const HOOK_EVENTS: seq<Event> := [Notification, Stop, SessionEnd, PreToolUse, PostToolUse, UserPromptSubmit]
  const MAIL_PUMP_EVENTS: seq<Event> := [Stop, UserPromptSubmit, SessionStart]
  const ASK_MATCHER: string := "AskUserQuestion"

  /** The ways to recognise earlier versions, of which only the shape of the commands ftown
      itself writes matters here. */
  datatype Recognition = Recognition(notify: string -> bool, pump: string -> bool, ask: string -> bool)

  function NotifySpec(known: Recognition, path: string): Spec {
    Spec(known.notify, Hook(path, None, Some(true), 0), CommandOnly)
  }

  function PumpSpec(known: Recognition, command: string): Spec {
    Spec(known.pump, Hook(command, Some(PUMP_TIMEOUT_SECONDS), None, 0), CommandTimeoutBackground)
  }

  function AskSpec(known: Recognition, command: string): Spec {
    Spec(known.ask, Hook(command, Some(ASK_HOOK_TIMEOUT_SECONDS), None, 0), CommandTimeoutBackground)
  }

  /** The three commands installed. Known: each is recognised as what it is. Recognised: also,
      the notifier is taken for neither of the others, nor they for it. */
  datatype Commands = Commands(known: Recognition, notify: string, pump: string, ask: string) {
    predicate Known() {
      known.notify(notify) && known.pump(pump) && known.ask(ask)
    }

    predicate Recognised() {
      && Known()
      && !known.pump(notify) && !known.ask(notify) && !known.notify(pump) && !known.notify(ask)
    }
  }

  function WithNotify(c: Commands, e: Event, list: seq<Group>): seq<Group> {
    if e in HOOK_EVENTS then UpsertAny(NotifySpec(c.known, c.notify), list).0 else list
  }

  function WithPump(c: Commands, e: Event, list: seq<Group>): seq<Group> {
    if e in MAIL_PUMP_EVENTS then UpsertAny(PumpSpec(c.known, c.pump), list).0 else list
  }

  function WithAsk(c: Commands, e: Event, list: seq<Group>): seq<Group> {
    if e == PreToolUse then UpsertIn(AskSpec(c.known, c.ask), ASK_MATCHER, list).0 else list
  }

  /** What an installation makes of one event's list. */
  function Installed(c: Commands, e: Event, list: seq<Group>): seq<Group> {
    WithAsk(c, e, WithPump(c, e, WithNotify(c, e, list)))
  }

  /** Every hook this event needs is there, as it should be. */
  predicate AllThere(c: Commands, e: Event, list: seq<Group>) {
    && (e in HOOK_EVENTS ==> FirstSettled(NotifySpec(c.known, c.notify), list))
    && (e in MAIL_PUMP_EVENTS ==> FirstSettled(PumpSpec(c.known, c.pump), list))
    && (e == PreToolUse ==> Settled(AskSpec(c.known, c.ask), Ours(AskSpec(c.known, c.ask), ASK_MATCHER, list)))
  }

  lemma InstallationIsComplete(c: Commands, e: Event, list: seq<Group>)
    requires c.Recognised()
    ensures AllThere(c, e, Installed(c, e, list))
  {
    var notify := NotifySpec(c.known, c.notify);
    var pump := PumpSpec(c.known, c.pump);
    var ask := AskSpec(c.known, c.ask);
    var first := WithNotify(c, e, list);
    var second := WithPump(c, e, first);
    if e in HOOK_EVENTS { FirstIsSettled(notify, list); }
    if e in MAIL_PUMP_EVENTS {
      FirstIsSettled(pump, first);
      if e in HOOK_EVENTS { StaysSettledAny(notify, pump, first); }
    }
    if e == PreToolUse {
      ExactlyOneInstalled(ask, ASK_MATCHER, second);
      StaysSettledIn(notify, ask, ASK_MATCHER, second);
    }
  }

  lemma CompleteIsLeftAlone(c: Commands, e: Event, list: seq<Group>)
    requires c.Recognised()
    ensures AllThere(c, e, list) <==> Installed(c, e, list) == list
  {
    if AllThere(c, e, list) {
      FirstIsSettled(NotifySpec(c.known, c.notify), list);
      FirstIsSettled(PumpSpec(c.known, c.pump), list);
      KeptIfSettled(AskSpec(c.known, c.ask), ASK_MATCHER, list);
    } else {
      InstallationIsComplete(c, e, list);
    }
  }

  /** Installing twice is installing once. */
  lemma InstallingTwice(c: Commands, e: Event, list: seq<Group>)
    requires c.Recognised()
    ensures Installed(c, e, Installed(c, e, list)) == Installed(c, e, list)
  {
    InstallationIsComplete(c, e, list);
    CompleteIsLeftAlone(c, e, Installed(c, e, list));
  }

  /** Any of the three. */
  function AnyOf(c: Commands): Spec {
    Spec(command => c.known.notify(command) || c.known.pump(command) || c.known.ask(command), Alien(0), CommandOnly)
  }

  lemma {:induction false} OthersOfOthers(a: Spec, all: Spec, hooks: seq<Hook>)
    requires forall command :: a.matches(command) ==> all.matches(command)
    ensures Others(all, Others(a, hooks)) == Others(all, hooks)
  {
    if hooks != [] {
      var init := hooks[..|hooks| - 1];
      var h := hooks[|hooks| - 1];
      OthersOfOthers(a, all, init);
      if !Matches(a, h) { assert (Others(a, init) + [h])[..|Others(a, init)|] == Others(a, init); }
      else { assert Others(a, hooks) == Others(a, init); }
    }
  }

  lemma {:induction false} YoursOfYours(a: Spec, all: Spec, list: seq<Group>)
    requires forall command :: a.matches(command) ==> all.matches(command)
    ensures Yours(all, Yours(a, list)) == Yours(all, list)
  {
    if list != [] {
      var init := list[..|list| - 1];
      var last := list[|list| - 1];
      YoursOfYours(a, all, init);
      YoursJoin(all, Yours(a, init), YoursOf(a, last));
      if last.Opaque? {
        YoursOne(all, last);
      } else {
        OthersOfOthers(a, all, last.hooks);
        YoursOne(all, last.(hooks := Others(a, last.hooks)));
      }
    }
  }

  /** The user's hooks survive an installation, under their matchers and in their order. */
  lemma InstallationKeepsYours(c: Commands, e: Event, list: seq<Group>)
    requires c.Known()
    ensures Yours(AnyOf(c), Installed(c, e, list)) == Yours(AnyOf(c), list)
  {
    var all := AnyOf(c);
    var first := WithNotify(c, e, list);
    var second := WithPump(c, e, first);
    var third := WithAsk(c, e, second);
    var notify := NotifySpec(c.known, c.notify);
    var pump := PumpSpec(c.known, c.pump);
    var ask := AskSpec(c.known, c.ask);
    if e in HOOK_EVENTS { YoursStayAny(notify, list); }
    YoursOfYours(notify, all, list); YoursOfYours(notify, all, first);
    if e in MAIL_PUMP_EVENTS { YoursStayAny(pump, first); }
    YoursOfYours(pump, all, first); YoursOfYours(pump, all, second);
    if e == PreToolUse { YoursStay(ask, ASK_MATCHER, second); }
    YoursOfYours(ask, all, second); YoursOfYours(ask, all, third);
  }

  // ---------- the settings file in memory ----------

  function ListOf(hooks: map<Event, seq<Group>>, e: Event): seq<Group> {
    if e in hooks then hooks[e] else []
  }

  class Settings {
    var hooks: map<Event, seq<Group>>
    var added: nat
    var repaired: nat
    var kept: nat

    constructor (hooks: map<Event, seq<Group>>)
      ensures this.hooks == hooks && added == repaired == kept == 0
    {
      this.hooks := hooks;
      added, repaired, kept := 0, 0, 0;
    }

    twostate predicate Counted(t: Tally)
      reads this
    {
      && added == old(added) + (if t == Added then 1 else 0)
      && repaired == old(repaired) + (if t == Repaired_ then 1 else 0)
      && kept == old(kept) + (if t == Kept then 1 else 0)
    }

    /** upsertHookEntry without a matcher. */
    method UpsertAnywhere(event: Event, spec: Spec)
      requires Usable(spec)
      modifies this
      ensures hooks == old(hooks)[event := UpsertAny(spec, ListOf(old(hooks), event)).0]
      ensures Counted(UpsertAny(spec, ListOf(old(hooks), event)).1)
    {
      var list := ListOf(hooks, event);
      for gi := 0 to |list|
        invariant unchanged(this)
        invariant forall i :: 0 <= i < gi ==> !Holds(spec, list[i])
      {
        if list[gi].Opaque? { continue; }
        var inner := list[gi].hooks;
        for hi := 0 to |inner|
          invariant unchanged(this)
          invariant forall i :: 0 <= i < hi ==> !Matches(spec, inner[i])
        {
          if Matches(spec, inner[hi]) {
            FirstHookIs(spec, inner, hi);
            FirstGroupIs(spec, list, gi);
            var fixed := Repaired(spec, inner[hi]);
            if fixed != inner[hi] { repaired := repaired + 1; } else { kept := kept + 1; }
            hooks := hooks[event := list[gi := list[gi].(hooks := inner[hi := fixed])]];
            return;
          }
        }
      }
      added := added + 1;
      hooks := hooks[event := list + [Group(Text(""), [spec.desired], 0)]];
    }

    /** The inner loop of the matcher-aware upsert, over one group's hooks. */
    static method SpliceHooks(spec: Spec, hooks: seq<Hook>, inTarget: bool, before: bool)
      returns (inner: seq<Hook>, found: bool, removedHere: bool, changed: bool)
      ensures Cleaned(inner, found, changed) == CleanHooks(spec, hooks, inTarget, before)
      ensures removedHere <==> |inner| < |hooks|
      ensures inner == [] && hooks != [] ==> removedHere
    {
      inner, found, removedHere, changed := hooks, before, false, false;
      var hi := |inner|;
      assert hooks[..hi] == hooks && inner[hi..] == [];
      while hi > 0
        invariant 0 <= hi <= |inner| <= |hooks| && inner[..hi] == hooks[..hi]
        invariant removedHere <==> |inner| < |hooks|
        invariant CleanHooks(spec, hooks, inTarget, before)
          == Resume(CleanHooks(spec, hooks[..hi], inTarget, found), inner[hi..], changed)
      {
        hi := hi - 1;
        var h := inner[hi];
        ghost var rest := inner[hi + 1..];
        HooksNext(spec, hooks, hi, inTarget, found, rest, changed);
        if !Matches(spec, h) {
          assert inner[hi..] == [h] + rest;
          continue;
        }
        if inTarget && !found {
          found := true;
          if Repaired(spec, h) != h { changed := true; }
          inner := inner[hi := Repaired(spec, h)];
          assert inner[hi..] == [Repaired(spec, h)] + rest;
          continue;
        }
        inner := inner[..hi] + inner[hi + 1..];
        assert inner[hi..] == rest;
        removedHere, changed := true, true;
      }
      assert inner[0..] == inner;
    }

    /** One turn of the outer loop: the group as it stays, if it stays. */
    static method SpliceGroup(spec: Spec, entry: Group, target: string, before: bool)
      returns (kept: seq<Group>, found: bool, changed: bool)
      ensures Cleaned(kept, found, changed) == CleanGroup(spec, target, entry, before)
    {
      if entry.Opaque? { return [entry], before, false; }
      var inner, foundHere, removedHere, changedHere := SpliceHooks(spec, entry.hooks, In(entry, target), before);
      kept := if removedHere && |inner| == 0 then [] else [entry.(hooks := inner)];
      return kept, foundHere, changedHere;
    }

    /** The outer loop, over the groups of an event. */
    static method SpliceGroups(spec: Spec, groups: seq<Group>, target: string)
      returns (list: seq<Group>, found: bool, changed: bool)
      ensures Cleaned(list, found, changed) == CleanList(spec, target, groups, false)
    {
      list, found, changed := groups, false, false;
      var gi := |list|;
      assert groups[..gi] == groups && list[gi..] == [];
      while gi > 0
        invariant 0 <= gi <= |list| && gi <= |groups| && list[..gi] == groups[..gi]
        invariant CleanList(spec, target, groups, false)
          == Resume(CleanList(spec, target, groups[..gi], found), list[gi..], changed)
      {
        gi := gi - 1;
        var entry := list[gi];
        ghost var rest := list[gi + 1..];
        GroupsNext(spec, target, groups, gi, found, rest, changed);
        var kept, foundHere, changedHere := SpliceGroup(spec, entry, target, found);
        found, changed := foundHere, changed || changedHere;
        list := list[..gi] + kept + list[gi + 1..];
        assert list[gi..] == kept + rest;
      }
      assert list[0..] == list;
    }

    /** upsertHookEntry with a matcher. */
    method UpsertUnder(event: Event, spec: Spec, target: string)
      requires Usable(spec)
      modifies this
      ensures hooks == old(hooks)[event := UpsertIn(spec, target, ListOf(old(hooks), event)).0]
      ensures Counted(UpsertIn(spec, target, ListOf(old(hooks), event)).1)
    {
      var list, found, changed := SpliceGroups(spec, ListOf(hooks, event), target);
      if !found {
        var k := 0;
        while k < |list| && !In(list[k], target)
          invariant unchanged(this)
          invariant 0 <= k <= |list| && forall i :: 0 <= i < k ==> !In(list[i], target)
        {
          k := k + 1;
        }
        PlaceAt(spec, target, list, k);
        if k < |list| {
          list := list[k := list[k].(hooks := list[k].hooks + [spec.desired])];
        } else {
          list := list + [Group(Text(target), [spec.desired], 0)];
        }
        if changed { repaired := repaired + 1; } else { added := added + 1; }
      } else if changed {
        repaired := repaired + 1;
      } else {
        kept := kept + 1;
      }
      hooks := hooks[event := list];
    }

    /** installClaudeHooks, between reading the file and writing it. */
    method Install(c: Commands)
      requires c.Known()
      modifies this
      ensures forall e :: ListOf(hooks, e) == Installed(c, e, ListOf(old(hooks), e))
    {
      ghost var was := hooks;
      for i := 0 to |HOOK_EVENTS|
        invariant NotifiedAll(c, i, was, hooks)
      {
        NotifiedNext(c, i, was, hooks);
        UpsertAnywhere(HOOK_EVENTS[i], NotifySpec(c.known, c.notify));
      }
      ghost var first := hooks;
      for i := 0 to |MAIL_PUMP_EVENTS|
        invariant PumpedAll(c, i, first, hooks)
      {
        PumpedNext(c, i, first, hooks);
        UpsertAnywhere(MAIL_PUMP_EVENTS[i], PumpSpec(c.known, c.pump));
      }
      ghost var second := hooks;
      UpsertUnder(PreToolUse, AskSpec(c.known, c.ask), ASK_MATCHER);
      forall e ensures ListOf(hooks, e) == Installed(c, e, ListOf(was, e)) {
        AllSteps(c, was, first, second, hooks, e);
      }
    }
  }

  predicate NotifiedUpTo(c: Commands, i: nat, before: map<Event, seq<Group>>, after: map<Event, seq<Group>>, e: Event)
    requires i <= |HOOK_EVENTS|
  {
    ListOf(after, e) == if e in HOOK_EVENTS[..i] then WithNotify(c, e, ListOf(before, e)) else ListOf(before, e)
  }

  predicate PumpedUpTo(c: Commands, i: nat, before: map<Event, seq<Group>>, after: map<Event, seq<Group>>, e: Event)
    requires i <= |MAIL_PUMP_EVENTS|
  {
    ListOf(after, e) == if e in MAIL_PUMP_EVENTS[..i] then WithPump(c, e, ListOf(before, e)) else ListOf(before, e)
  }

  ghost predicate NotifiedAll(c: Commands, i: nat, before: map<Event, seq<Group>>, after: map<Event, seq<Group>>)
    requires i <= |HOOK_EVENTS|
  {
    forall e :: NotifiedUpTo(c, i, before, after, e)
  }

  lemma NotifiedDone(c: Commands, before: map<Event, seq<Group>>, after: map<Event, seq<Group>>, e: Event)
    requires NotifiedAll(c, |HOOK_EVENTS|, before, after)
    ensures ListOf(after, e) == WithNotify(c, e, ListOf(before, e))
  {
    assert HOOK_EVENTS[..|HOOK_EVENTS|] == HOOK_EVENTS;
    assert NotifiedUpTo(c, |HOOK_EVENTS|, before, after, e);
  }

  lemma NotifiedNext(c: Commands, i: nat, before: map<Event, seq<Group>>, now: map<Event, seq<Group>>)
    requires i < |HOOK_EVENTS| && NotifiedAll(c, i, before, now)
    ensures var event := HOOK_EVENTS[i];
            var after := now[event := UpsertAny(NotifySpec(c.known, c.notify), ListOf(now, event)).0];
            NotifiedAll(c, i + 1, before, after)
  {
    var event := HOOK_EVENTS[i];
    var after := now[event := UpsertAny(NotifySpec(c.known, c.notify), ListOf(now, event)).0];
    assert HOOK_EVENTS[..i + 1] == HOOK_EVENTS[..i] + [event];
    assert event !in HOOK_EVENTS[..i];
    var next := i + 1;
    forall e ensures NotifiedUpTo(c, next, before, after, e) {
      assert NotifiedUpTo(c, i, before, now, e);
      assert e in HOOK_EVENTS[..next] <==> e in HOOK_EVENTS[..i] || e == event;
      assert ListOf(after, e) == if e == event then after[event] else ListOf(now, e);
    }
  }

  ghost predicate PumpedAll(c: Commands, i: nat, before: map<Event, seq<Group>>, after: map<Event, seq<Group>>)
    requires i <= |MAIL_PUMP_EVENTS|
  {
    forall e :: PumpedUpTo(c, i, before, after, e)
  }

  lemma PumpedDone(c: Commands, before: map<Event, seq<Group>>, after: map<Event, seq<Group>>, e: Event)
    requires PumpedAll(c, |MAIL_PUMP_EVENTS|, before, after)
    ensures ListOf(after, e) == WithPump(c, e, ListOf(before, e))
  {
    assert MAIL_PUMP_EVENTS[..|MAIL_PUMP_EVENTS|] == MAIL_PUMP_EVENTS;
    assert PumpedUpTo(c, |MAIL_PUMP_EVENTS|, before, after, e);
  }

  lemma PumpedNext(c: Commands, i: nat, before: map<Event, seq<Group>>, now: map<Event, seq<Group>>)
    requires i < |MAIL_PUMP_EVENTS| && PumpedAll(c, i, before, now)
    ensures var event := MAIL_PUMP_EVENTS[i];
            var after := now[event := UpsertAny(PumpSpec(c.known, c.pump), ListOf(now, event)).0];
            PumpedAll(c, i + 1, before, after)
  {
    var event := MAIL_PUMP_EVENTS[i];
    var after := now[event := UpsertAny(PumpSpec(c.known, c.pump), ListOf(now, event)).0];
    assert MAIL_PUMP_EVENTS[..i + 1] == MAIL_PUMP_EVENTS[..i] + [event];
    assert event !in MAIL_PUMP_EVENTS[..i];
    var next := i + 1;
    forall e ensures PumpedUpTo(c, next, before, after, e) {
      assert PumpedUpTo(c, i, before, now, e);
      assert e in MAIL_PUMP_EVENTS[..next] <==> e in MAIL_PUMP_EVENTS[..i] || e == event;
      assert ListOf(after, e) == if e == event then after[event] else ListOf(now, e);
    }
  }

  lemma AllSteps(c: Commands, was: map<Event, seq<Group>>, first: map<Event, seq<Group>>, second: map<Event, seq<Group>>,
                 last: map<Event, seq<Group>>, e: Event)
    requires NotifiedAll(c, |HOOK_EVENTS|, was, first)
    requires PumpedAll(c, |MAIL_PUMP_EVENTS|, first, second)
    requires last == second[PreToolUse := UpsertIn(AskSpec(c.known, c.ask), ASK_MATCHER, ListOf(second, PreToolUse)).0]
    ensures ListOf(last, e) == Installed(c, e, ListOf(was, e))
  {
    NotifiedDone(c, was, first, e);
    PumpedDone(c, first, second, e);
  }

  function Resume<T>(r: Cleaned<T>, rest: seq<T>, changed: bool): Cleaned<T> {
    Cleaned(r.items + rest, r.found, changed || r.changed)
  }

  lemma HooksNext(spec: Spec, hooks: seq<Hook>, hi: nat, inTarget: bool, found: bool, rest: seq<Hook>, changed: bool)
    requires hi < |hooks|
    ensures var h := hooks[hi];
            Resume(CleanHooks(spec, hooks[..hi + 1], inTarget, found), rest, changed) ==
            if !Matches(spec, h) then Resume(CleanHooks(spec, hooks[..hi], inTarget, found), [h] + rest, changed)
            else if inTarget && !found then
              Resume(CleanHooks(spec, hooks[..hi], inTarget, true), [Repaired(spec, h)] + rest, changed || Repaired(spec, h) != h)
            else Resume(CleanHooks(spec, hooks[..hi], inTarget, found), rest, true)
  {
    assert hooks[..hi + 1][..hi] == hooks[..hi];
  }

  lemma GroupsNext(spec: Spec, target: string, list: seq<Group>, gi: nat, found: bool, rest: seq<Group>, changed: bool)
    requires gi < |list|
    ensures var g := CleanGroup(spec, target, list[gi], found);
            Resume(CleanList(spec, target, list[..gi + 1], found), rest, changed) ==
            Resume(CleanList(spec, target, list[..gi], g.found), g.items + rest, changed || g.changed)
  {
    assert list[..gi + 1][..gi] == list[..gi];
  }

  lemma {:induction false} PlaceAt(spec: Spec, target: string, list: seq<Group>, k: nat)
    requires k <= |list| && (k < |list| ==> In(list[k], target)) && forall i :: 0 <= i < k ==> !In(list[i], target)
    ensures Place(spec, target, list) ==
            if k < |list| then list[k := list[k].(hooks := list[k].hooks + [spec.desired])]
            else list + [Group(Text(target), [spec.desired], 0)]
  {
    if k > 0 {
      PlaceAt(spec, target, list[1..], k - 1);
      assert list == [list[0]] + list[1..];
    }
  }
}

/** What an installation leaves in a settings file, hook by hook: which earlier version
    stays, with what it keeps of its own, and what a list without one gets. */
module HookOutcomes {
  import opened HookInstaller
  import opened Results

  // ---------- which version stays ----------

  /** The last of the versions that are where they belong. */
  function LastPlaced(ours: seq<Mine>): Option<Hook> {
    if ours == [] then None
    else if ours[|ours| - 1].placed then Some(ours[|ours| - 1].hook)
    else LastPlaced(ours[..|ours| - 1])
  }

  lemma {:induction false} LastPlacedJoin(a: seq<Mine>, b: seq<Mine>)
    ensures LastPlaced(a + b) == if LastPlaced(b).Some? then LastPlaced(b) else LastPlaced(a)
  {
    if b == [] {
      assert a + b == a;
    } else {
      LastPlacedJoin(a, b[..|b| - 1]);
      assert (a + b)[..|a + b| - 1] == a + b[..|b| - 1];
    }
  }

  /** One version, repaired, or none. */
  function Only(spec: Spec, kept: Option<Hook>): seq<Mine> {
    if kept.Some? then [Mine(true, Repaired(spec, kept.value))] else []
  }

  /** What cleaning keeps of some versions, unless one was kept already. */
  function KeptOf(spec: Spec, ours: seq<Mine>, found: bool): seq<Mine> {
    if found then [] else Only(spec, LastPlaced(ours))
  }

  lemma {:induction false} CleanedHooksAre(spec: Spec, hooks: seq<Hook>, inTarget: bool, found: bool)
    requires Usable(spec)
    ensures var r := CleanHooks(spec, hooks, inTarget, found);
      && MineIn(spec, r.items, inTarget) == KeptOf(spec, MineIn(spec, hooks, inTarget), found)
      && (r.found <==> found || LastPlaced(MineIn(spec, hooks, inTarget)).Some?)
  {
    if hooks != [] {
      var h, init := hooks[|hooks| - 1], hooks[..|hooks| - 1];
      var f := found || (Matches(spec, h) && inTarget);
      CleanedHooksAre(spec, init, inTarget, f);
      var before := CleanHooks(spec, init, inTarget, f).items;
      MineLast(spec, before, h, inTarget);
      MineLast(spec, before, Repaired(spec, h), inTarget);
      LastPlacedLast(spec, init, h, inTarget);
    }
  }

  lemma {:induction false} MineLast(spec: Spec, hooks: seq<Hook>, h: Hook, placed: bool)
    ensures MineIn(spec, hooks + [h], placed) == MineIn(spec, hooks, placed) + if Matches(spec, h) then [Mine(placed, h)] else []
  {
    assert (hooks + [h])[..|hooks|] == hooks;
  }

  lemma {:induction false} LastPlacedLast(spec: Spec, init: seq<Hook>, h: Hook, placed: bool)
    ensures LastPlaced(MineIn(spec, init + [h], placed)) ==
      if Matches(spec, h) && placed then Some(h) else LastPlaced(MineIn(spec, init, placed))
  {
    MineLast(spec, init, h, placed);
    var mine := MineIn(spec, init, placed);
    if Matches(spec, h) { assert (mine + [Mine(placed, h)])[..|mine|] == mine; } else { assert mine + [] == mine; }
  }

  lemma {:induction false} CleanedGroupIs(spec: Spec, target: string, g: Group, found: bool)
    requires Usable(spec)
    ensures var r := CleanGroup(spec, target, g, found);
      && Ours(spec, target, r.items) == KeptOf(spec, OursOf(spec, target, g), found)
      && (r.found <==> found || LastPlaced(OursOf(spec, target, g)).Some?)
  {
    if g.Opaque? {
      OursOne(spec, target, g);
    } else {
      var r := CleanHooks(spec, g.hooks, In(g, target), found);
      CleanedHooksAre(spec, g.hooks, In(g, target), found);
      OursOne(spec, target, g.(hooks := r.items));
    }
  }

  lemma {:induction false} CleanedListIs(spec: Spec, target: string, list: seq<Group>, found: bool)
    requires Usable(spec)
    ensures var r := CleanList(spec, target, list, found);
      && Ours(spec, target, r.items) == KeptOf(spec, Ours(spec, target, list), found)
      && (r.found <==> found || LastPlaced(Ours(spec, target, list)).Some?)
  {
    if list != [] {
      var last, init := list[|list| - 1], list[..|list| - 1];
      var g := CleanGroup(spec, target, last, found);
      CleanedGroupIs(spec, target, last, found);
      CleanedListIs(spec, target, init, g.found);
      OursJoin(spec, target, CleanList(spec, target, init, g.found).items, g.items);
      LastPlacedJoin(Ours(spec, target, init), OursOf(spec, target, last));
    }
  }

  /** The matcher-aware upsert keeps one version: the last one under the target matcher,
      repaired; or, if there is none, the new hook. */
  lemma {:induction false} VersionThatStays(spec: Spec, target: string, list: seq<Group>)
    requires Usable(spec)
    ensures var kept := LastPlaced(Ours(spec, target, list));
      Ours(spec, target, UpsertIn(spec, target, list).0) == [Mine(true, if kept.Some? then Repaired(spec, kept.value) else spec.desired)]
  {
    CleanedListIs(spec, target, list, false);
    var c := CleanList(spec, target, list, false);
    if !c.found { PlaceAddsOurs(spec, target, c.items); }
  }

  /** The count says what happened: kept if the hook was installed, added if no version of it
      was anywhere, repaired otherwise. */
  lemma {:induction false} CountedAs(spec: Spec, target: string, list: seq<Group>)
    requires Usable(spec)
    ensures UpsertIn(spec, target, list).1 ==
      if Settled(spec, Ours(spec, target, list)) then Kept
      else if Ours(spec, target, list) == [] then Added
      else Repaired_
  {
    KeptIfSettled(spec, target, list);
    CleanListLeaves(spec, target, list, false);
    CleanedListIs(spec, target, list, false);
    UnchangedIsSame(spec, target, list, false);
  }

  predicate EmptyGroup(g: Group) {
    g.Group? && g.hooks == []
  }

  /** No group is left behind empty: only groups that were empty before are. */
  lemma {:induction false} NoEmptyGroupLeft(spec: Spec, target: string, list: seq<Group>, g: Group)
    requires g in UpsertIn(spec, target, list).0 && EmptyGroup(g)
    ensures g in list
  {
    var c := CleanList(spec, target, list, false);
    if !c.found { PlacedIsNotEmpty(spec, target, c.items, g); }
    CleanedIsNotEmpty(spec, target, list, false, g);
  }

  lemma {:induction false} CleanedIsNotEmpty(spec: Spec, target: string, list: seq<Group>, found: bool, g: Group)
    requires g in CleanList(spec, target, list, found).items && EmptyGroup(g)
    ensures g in list
  {
    if list != [] {
      var last, init := list[|list| - 1], list[..|list| - 1];
      var cleaned := CleanGroup(spec, target, last, found);
      if g !in cleaned.items {
        CleanedIsNotEmpty(spec, target, init, cleaned.found, g);
      }
    }
  }

  lemma {:induction false} PlacedIsNotEmpty(spec: Spec, target: string, list: seq<Group>, g: Group)
    requires g in Place(spec, target, list) && EmptyGroup(g)
    ensures g in list
  {
    if list != [] && !In(list[0], target) && g != list[0] {
      PlacedIsNotEmpty(spec, target, list[1..], g);
    }
  }

  /** Without a version, the hook goes into the first group with the target matcher; a group
      without a matcher has the empty one. */
  lemma {:induction false} GoesIntoFirstGroup(spec: Spec, target: string, before: seq<Group>, g: Group, after: seq<Group>)
    requires g.Group? && (g.matcher == Text(target) || (g.matcher == Absent && target == ""))
    requires forall h <- before :: !(h.Group? && (h.matcher == Text(target) || (h.matcher == Absent && target == "")))
    ensures Place(spec, target, before + [g] + after) == before + [g.(hooks := g.hooks + [spec.desired])] + after
  {
    var list := before + [g] + after;
    if before == [] {
      assert list[0] == g && list[1..] == after;
    } else {
      assert before[0] in before;
      GoesIntoFirstGroup(spec, target, before[1..], g, after);
      assert list[0] == before[0] && list[1..] == before[1..] + [g] + after;
    }
  }

  // ---------- the three hooks ----------

  lemma {:induction false} FirstMatches(spec: Spec, list: seq<Group>)
    ensures var gi := FirstGroup(spec, list);
      gi < |list| ==> list[gi].Group? && FirstHook(spec, list[gi].hooks) < |list[gi].hooks|
  {
  }

  /** The first version in a list is replaced by another hook. */
  function WithFirst(spec: Spec, list: seq<Group>, h: Hook): seq<Group> {
    var gi := FirstGroup(spec, list);
    FirstMatches(spec, list);
    if gi == |list| then list
    else list[gi := list[gi].(hooks := list[gi].hooks[FirstHook(spec, list[gi].hooks) := h])]
  }

  /** The notification hook: an earlier version gets the new command and keeps the rest; else
      a group of its own is added, in the background. */
  lemma {:induction false} NotifierIs(c: Commands, e: Event, list: seq<Group>)
    ensures var first := First(NotifySpec(c.known, c.notify), list);
      WithNotify(c, e, list) ==
        if e !in {Notification, Stop, SessionEnd, PreToolUse, PostToolUse, UserPromptSubmit} then list
        else if first.None? then list + [Group(Text(""), [Hook(c.notify, None, Some(true), 0)], 0)]
        else WithFirst(NotifySpec(c.known, c.notify), list, first.value.(command := c.notify))
  {
  }

  /** The mail pump: an earlier version gets the command, 30 seconds and no background flag,
      and keeps its other fields; else a group of its own is added. */
  lemma {:induction false} PumpIs(c: Commands, e: Event, list: seq<Group>)
    ensures var first := First(PumpSpec(c.known, c.pump), list);
      WithPump(c, e, list) ==
        if e !in {Stop, UserPromptSubmit, SessionStart} then list
        else if first.None? then list + [Group(Text(""), [Hook(c.pump, Some(30), None, 0)], 0)]
        else WithFirst(PumpSpec(c.known, c.pump), list, Hook(c.pump, Some(30), None, first.value.rest))
  {
  }

  /** The question hook: afterwards there is one, under its matcher, with the command, an hour
      and no background flag; an earlier version there keeps its other fields. */
  lemma {:induction false} AskIs(c: Commands, e: Event, list: seq<Group>)
    requires c.Known()
    ensures var ask := AskSpec(c.known, c.ask);
      var kept := LastPlaced(Ours(ask, "AskUserQuestion", list));
      if e != PreToolUse then WithAsk(c, e, list) == list
      else
        Ours(ask, "AskUserQuestion", WithAsk(c, e, list))
          == [Mine(true, Hook(c.ask, Some(3600), None, if kept.Some? && kept.value.Hook? then kept.value.rest else 0))]
  {
    var ask := AskSpec(c.known, c.ask);
    if e == PreToolUse {
      VersionThatStays(ask, "AskUserQuestion", list);
      PlacedAreHooks(ask, "AskUserQuestion", list);
    }
  }

  lemma {:induction false} PlacedAreHooks(spec: Spec, target: string, list: seq<Group>)
    ensures var kept := LastPlaced(Ours(spec, target, list)); kept.Some? ==> kept.value.Hook?
  {
    if list != [] {
      var init, last := list[..|list| - 1], list[|list| - 1];
      PlacedAreHooks(spec, target, init);
      LastPlacedJoin(Ours(spec, target, init), OursOf(spec, target, last));
      if last.Group? { MineAreHooks(spec, last.hooks, In(last, target)); }
    }
  }

  lemma {:induction false} MineAreHooks(spec: Spec, hooks: seq<Hook>, placed: bool)
    ensures var kept := LastPlaced(MineIn(spec, hooks, placed)); kept.Some? ==> kept.value.Hook?
  {
    if hooks != [] {
      MineAreHooks(spec, hooks[..|hooks| - 1], placed);
      assert hooks == hooks[..|hooks| - 1] + [hooks[|hooks| - 1]];
      LastPlacedLast(spec, hooks[..|hooks| - 1], hooks[|hooks| - 1], placed);
    }
  }

  /** After an installation every event has the hooks it needs, with what they should say. */
  lemma {:induction false} HooksSay(c: Commands, e: Event, list: seq<Group>)
    requires c.Recognised()
    ensures var after := Installed(c, e, list);
      && (e in {Notification, Stop, SessionEnd, PreToolUse, PostToolUse, UserPromptSubmit} ==>
            var h := First(NotifySpec(c.known, c.notify), after); h.Some? && h.value.command == c.notify)
      && (e in {Stop, UserPromptSubmit, SessionStart} ==>
            var h := First(PumpSpec(c.known, c.pump), after);
            h.Some? && h.value.command == c.pump && h.value.timeout == Some(30) && h.value.background.None?)
      && (e == PreToolUse ==>
            var ours := Ours(AskSpec(c.known, c.ask), "AskUserQuestion", after);
            && |ours| == 1 && ours[0].placed && ours[0].hook.Hook?
            && ours[0].hook.command == c.ask && ours[0].hook.timeout == Some(3600) && ours[0].hook.background.None?)
      && (e.Another? ==> after == list)
  {
    InstallationIsComplete(c, e, list);
    if e == PreToolUse { AskIs(c, e, WithPump(c, e, WithNotify(c, e, list))); }
  }

  function NotifierGroup(c: Commands): Group {
    Group(Text(""), [Hook(c.notify, None, Some(true), 0)], 0)
  }

  function PumpGroup(c: Commands): Group {
    Group(Text(""), [Hook(c.pump, Some(30), None, 0)], 0)
  }

  function AskGroup(c: Commands): Group {
    Group(Text("AskUserQuestion"), [Hook(c.ask, Some(3600), None, 0)], 0)
  }

  lemma {:induction false} PumpAfterNotifier(c: Commands, e: Event, first: seq<Group>)
    requires c.Recognised() && e in MAIL_PUMP_EVENTS && (first == [] || first == [NotifierGroup(c)])
    ensures WithPump(c, e, first) == first + [PumpGroup(c)]
  {
    var spec := PumpSpec(c.known, c.pump);
    if first != [] { assert !Holds(spec, first[0]) by { assert !Matches(spec, first[0].hooks[0]); } }
    PumpIs(c, e, first);
  }

  lemma {:induction false} AskAfterNotifier(c: Commands)
    requires c.Recognised()
    ensures WithAsk(c, PreToolUse, [NotifierGroup(c)]) == [NotifierGroup(c), AskGroup(c)]
  {
    var ask, g := AskSpec(c.known, c.ask), NotifierGroup(c);
    var placed := In(g, "AskUserQuestion");
    MineLast(ask, [], g.hooks[0], placed);
    assert g.hooks == [] + [g.hooks[0]] && !Matches(ask, g.hooks[0]);
    assert OursOf(ask, "AskUserQuestion", g) == [];
    CleanGroupLeaves(ask, "AskUserQuestion", g, false);
    assert [g][..0] == [];
    assert CleanList(ask, "AskUserQuestion", [g], false) == Cleaned([g], false, false);
    assert [g][1..] == [];
    assert Place(ask, "AskUserQuestion", []) == [AskGroup(c)];
  }

  /** An installation into nothing. */
  lemma {:induction false} FreshInstallation(c: Commands, e: Event)
    requires c.Recognised()
    ensures Installed(c, e, []) ==
      match e
      case Notification => [NotifierGroup(c)]
      case SessionEnd => [NotifierGroup(c)]
      case PostToolUse => [NotifierGroup(c)]
      case Stop => [NotifierGroup(c), PumpGroup(c)]
      case UserPromptSubmit => [NotifierGroup(c), PumpGroup(c)]
      case SessionStart => [PumpGroup(c)]
      case PreToolUse => [NotifierGroup(c), AskGroup(c)]
      case Another(_) => []
  {
    NotifierIs(c, e, []);
    assert [] + [NotifierGroup(c)] == [NotifierGroup(c)];
    if e in MAIL_PUMP_EVENTS { PumpAfterNotifier(c, e, WithNotify(c, e, [])); }
    if e == PreToolUse { AskAfterNotifier(c); }
  }
}

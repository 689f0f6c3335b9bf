/** Long polls on one attention item: one session's lock, its waiters and the liveness
    records, in every interleaving with operations that resolve items. */
module AttentionWait {
  import opened Results

  const WAITER_TTL_MS: nat := 10_000

  type EventId = nat
  type WaiterId = nat
  /** Identity of a liveness record: polls hold the record itself, not its key. */
  type Ref = nat

  /** Where a poll is in its loop. `AtDecision` has the answer of readItem. */
  datatype Phase = Asking | AtDecision(resolved: bool) | Parked

  /** `fired`: the promise that `notify` resolves is already resolved. */
  datatype Waiter = Waiter(event: EventId, phase: Phase, fired: bool, poller: Option<Ref>)

  datatype Liveness = Liveness(active: int, lastPollAt: nat)

  /** The session's lock, as far as resolving goes: `committed` after the rename. */
  datatype Lock = Free | Resolving(ids: set<EventId>, committed: bool)

  datatype State = State(
    now: nat,
    resolved: set<EventId>,           // on disk
    lock: Lock,
    waiters: map<WaiterId, Waiter>,   // itemWaiters of the session
    pollers: map<EventId, Ref>,
    records: map<Ref, Liveness>,
    nextRef: Ref,                     // object identities are fresh
    orphaned: set<EventId>)           // resolved by a save that threw after its rename

  datatype Event =
    | Tick(ms: nat)
    | Start(w: WaiterId, event: EventId)
    | Read(w: WaiterId)                     // readItem, under the lock
    | Decide(w: WaiterId, late: bool)       // resolved or past the deadline: return; else park
    | Continue(w: WaiterId, aborted: bool)  // woken, timed out or aborted: the top of the loop
    | BeginResolve(ids: set<EventId>)
    | Commit
    | Saved
    | SaveFailed

  predicate Stale(s: State, e: EventId)
    requires e in s.pollers
  {
    s.pollers[e] in s.records && s.records[s.pollers[e]].active == 0
    && s.now > s.records[s.pollers[e]].lastPollAt + WAITER_TTL_MS
  }

  /** The poll's finally block. */
  function Finish(s: State, w: WaiterId, aborted: bool): State
    requires w in s.waiters
  {
    var waiter := s.waiters[w];
    var t := s.(waiters := s.waiters - {w});
    if waiter.poller.None? || waiter.poller.value !in s.records then t
    else
      var r := waiter.poller.value;
      var prior := s.records[r];
      var left := Liveness(prior.active - 1, if aborted then prior.lastPollAt else s.now);
      var drop := aborted && left.active == 0 && waiter.event in s.pollers && s.pollers[waiter.event] == r;
      t.(records := s.records[r := left],
         pollers := if drop then s.pollers - {waiter.event} else s.pollers)
  }

  /** Register with the item's liveness record, after sweeping stale ones. */
  function Register(s: State, w: WaiterId): State
    requires w in s.waiters
  {
    var e := s.waiters[w].event;
    var swept := map k | k in s.pollers && !Stale(s, k) :: s.pollers[k];
    var r := if e in swept then swept[e] else s.nextRef;
    var prior := if e in swept && r in s.records then s.records[r] else Liveness(0, s.now);
    s.(pollers := swept[e := r],
       records := s.records[r := Liveness(prior.active + 1, s.now)],
       nextRef := s.nextRef + 1,
       waiters := s.waiters[w := s.waiters[w].(poller := Some(r))])
  }

  function Park(s: State, w: WaiterId): State
    requires w in s.waiters
  {
    s.(waiters := s.waiters[w := s.waiters[w].(phase := Parked)])
  }

  function WakeAll(s: State): State {
    s.(waiters := map w | w in s.waiters :: s.waiters[w].(fired := true))
  }

  function Step(s: State, e: Event): State {
    match e
    case Tick(ms) => s.(now := s.now + ms)
    case Start(w, event) =>
      if w in s.waiters then s else s.(waiters := s.waiters[w := Waiter(event, Asking, false, None)])
    case Read(w) =>
      if w !in s.waiters || s.waiters[w].phase != Asking || s.lock != Free then s
      else s.(waiters := s.waiters[w := s.waiters[w].(phase := AtDecision(s.waiters[w].event in s.resolved))])
    case Decide(w, late) =>
      if w !in s.waiters || !s.waiters[w].phase.AtDecision? then s
      else if s.waiters[w].phase.resolved || late then Finish(s, w, false)
      else if s.waiters[w].poller.None? then Park(Register(s, w), w)
      else Park(s, w)
    case Continue(w, aborted) =>
      if w !in s.waiters || s.waiters[w].phase != Parked then s
      else if aborted then Finish(s, w, true)
      else s.(waiters := s.waiters[w := s.waiters[w].(phase := Asking, fired := false)])
    case BeginResolve(ids) => if s.lock == Free then s.(lock := Resolving(ids, false)) else s
    case Commit =>
      if s.lock.Resolving? && !s.lock.committed then
        s.(resolved := s.resolved + s.lock.ids, lock := s.lock.(committed := true))
      else s
    case Saved => if s.lock.Resolving? && s.lock.committed then WakeAll(s.(lock := Free)) else s
    case SaveFailed =>
      if s.lock.Resolving? then
        s.(lock := Free, orphaned := s.orphaned + (if s.lock.committed then s.lock.ids else {}))
      else s
  }

  function Run(s: State, events: seq<Event>): State {
    if events == [] then s else Step(Run(s, events[..|events| - 1]), events[|events| - 1])
  }

  ghost predicate Initial(s: State) {
    s.lock == Free && s.waiters == map[] && s.pollers == map[] && s.records == map[] && s.orphaned == {}
  }

  // ---------- no lost wake-up ----------

  /** Parked on a resolved item with nothing on its way that will wake it. */
  predicate Stranded(s: State, w: WaiterId) {
    && w in s.waiters && s.waiters[w].phase == Parked && !s.waiters[w].fired
    && s.waiters[w].event in s.resolved
    && !(s.lock.Resolving? && s.lock.committed && s.waiters[w].event in s.lock.ids)
  }

  /** A poll that is about to park has a promise that will tell it. */
  predicate Alert(s: State, x: Waiter) {
    (x.phase == Parked || x.phase == AtDecision(false)) && !x.fired && x.event in s.resolved && x.event !in s.orphaned ==>
      s.lock.Resolving? && s.lock.committed && x.event in s.lock.ids
  }

  ghost predicate AllAlert(s: State) {
    forall w <- s.waiters :: Alert(s, s.waiters[w])
  }

  /** A poll's own steps. */
  lemma PollKeepsAlert(s: State, e: Event, w: WaiterId)
    requires AllAlert(s) && (e.Start? || e.Read? || e.Decide? || e.Continue?)
    requires w in Step(s, e).waiters
    ensures Alert(Step(s, e), Step(s, e).waiters[w])
  {
    if w in s.waiters { assert Alert(s, s.waiters[w]); }
    PollResolvesNothing(s, e);
    if w != e.w && w in s.waiters { PollLeavesOthers(s, e, w); }
  }

  lemma PollResolvesNothing(s: State, e: Event)
    requires e.Start? || e.Read? || e.Decide? || e.Continue?
    ensures var t := Step(s, e); t.lock == s.lock && t.resolved == s.resolved && t.orphaned == s.orphaned
  {
  }

  lemma PollLeavesOthers(s: State, e: Event, w: WaiterId)
    requires e.Start? || e.Read? || e.Decide? || e.Continue?
    requires w in s.waiters && w != e.w
    ensures w in Step(s, e).waiters && Step(s, e).waiters[w] == s.waiters[w]
  {
  }

  /** The steps of whoever resolves. */
  lemma ResolveKeepsAlert(s: State, e: Event, w: WaiterId)
    requires AllAlert(s) && !(e.Start? || e.Read? || e.Decide? || e.Continue?)
    requires w in Step(s, e).waiters
    ensures Alert(Step(s, e), Step(s, e).waiters[w])
  {
    assert Alert(s, s.waiters[w]);
  }

  lemma StepKeepsAlert(s: State, e: Event)
    requires AllAlert(s)
    ensures AllAlert(Step(s, e))
  {
    var t := Step(s, e);
    forall w <- t.waiters ensures Alert(t, t.waiters[w]) {
      if e.Start? || e.Read? || e.Decide? || e.Continue? { PollKeepsAlert(s, e, w); } else { ResolveKeepsAlert(s, e, w); }
    }
  }

  lemma {:induction false} RunKeepsAlert(s: State, events: seq<Event>)
    requires Initial(s)
    ensures AllAlert(Run(s, events))
  {
    if events != [] {
      RunKeepsAlert(s, events[..|events| - 1]);
      StepKeepsAlert(Run(s, events[..|events| - 1]), events[|events| - 1]);
    }
  }

  /** In every interleaving a poll is stranded only by a save that threw although its
      rename had taken effect ... */
  lemma StrandedOnlyByBrokenSave(s: State, events: seq<Event>, w: WaiterId)
    requires Initial(s) && Stranded(Run(s, events), w)
    ensures Run(s, events).waiters[w].event in Run(s, events).orphaned
  {
    RunKeepsAlert(s, events);
    var t := Run(s, events);
    assert Alert(t, t.waiters[w]);
  }

  /** ... so if every save either fails before its rename or returns, none ever is. */
  lemma {:induction false} NoLostWakeUp(s: State, events: seq<Event>, w: WaiterId)
    requires Initial(s)
    requires forall k :: 0 <= k < |events| && events[k] == SaveFailed ==>
               var t := Run(s, events[..k]); !(t.lock.Resolving? && t.lock.committed)
    ensures !Stranded(Run(s, events), w)
  {
    NoOrphans(s, events);
    if Stranded(Run(s, events), w) { StrandedOnlyByBrokenSave(s, events, w); }
  }

  lemma {:induction false} NoOrphans(s: State, events: seq<Event>)
    requires Initial(s)
    requires forall k :: 0 <= k < |events| && events[k] == SaveFailed ==>
               var t := Run(s, events[..k]); !(t.lock.Resolving? && t.lock.committed)
    ensures Run(s, events).orphaned == {}
  {
    if events != [] {
      var front := events[..|events| - 1];
      forall k | 0 <= k < |front| && front[k] == SaveFailed
        ensures var t := Run(s, front[..k]); !(t.lock.Resolving? && t.lock.committed)
      {
        assert front[..k] == events[..k] && events[k] == SaveFailed;
      }
      NoOrphans(s, front);
    }
  }

  /** The converse: a save that throws after its rename strands every poll parked on
      what it resolved and not yet woken, until its own timeout or the next resolution of
      anything in the session that is saved. */
  lemma BrokenSaveStrands(s: State, w: WaiterId)
    requires s.lock.Resolving? && s.lock.committed && s.lock.ids <= s.resolved
    requires w in s.waiters && s.waiters[w].phase == Parked && !s.waiters[w].fired && s.waiters[w].event in s.lock.ids
    ensures Stranded(Step(s, SaveFailed), w)
  {
  }

  /** Such a run exists: poll, park, resolve, lose the directory sync. */
  lemma LostWakeUpHappens(s: State)
    requires Initial(s) && 7 !in s.resolved
    ensures Stranded(Run(s, [Start(0, 7), Read(0), Decide(0, false), BeginResolve({7}), Commit, SaveFailed]), 0)
  {
    var parked := [Start(0, 7), Read(0), Decide(0, false)];
    PollParks(s);
    var a := parked + [BeginResolve({7})];
    var b := a + [Commit];
    var c := b + [SaveFailed];
    RunLast(s, parked, BeginResolve({7}));
    RunLast(s, a, Commit);
    RunLast(s, b, SaveFailed);
    assert c == [Start(0, 7), Read(0), Decide(0, false), BeginResolve({7}), Commit, SaveFailed];
    BrokenSaveStrands(Run(s, b), 0);
  }

  lemma RunLast(s: State, events: seq<Event>, last: Event)
    ensures Run(s, events + [last]) == Step(Run(s, events), last)
  {
    assert (events + [last])[..|events|] == events;
  }

  lemma PollParks(s: State)
    requires Initial(s) && 7 !in s.resolved
    ensures var t := Run(s, [Start(0, 7), Read(0), Decide(0, false)]);
      && t.lock == Free && t.resolved == s.resolved
      && 0 in t.waiters && t.waiters[0].phase == Parked && t.waiters[0].event == 7 && !t.waiters[0].fired
  {
    RunLast(s, [], Start(0, 7));
    RunLast(s, [Start(0, 7)], Read(0));
    RunLast(s, [Start(0, 7), Read(0)], Decide(0, false));
    assert [] + [Start(0, 7)] == [Start(0, 7)];
    assert [Start(0, 7)] + [Read(0)] == [Start(0, 7), Read(0)];
    assert [Start(0, 7), Read(0)] + [Decide(0, false)] == [Start(0, 7), Read(0), Decide(0, false)];
    var t := Step(s, Start(0, 7));
    assert t.waiters[0] == Waiter(7, Asking, false, None);
    assert Step(t, Read(0)).waiters[0] == Waiter(7, AtDecision(false), false, None);
  }

  // ---------- the active counts ----------

  /** The polls registered on a record and still waiting. */
  function Holders(waiters: map<WaiterId, Waiter>, r: Ref): set<WaiterId> {
    set w | w in waiters && waiters[w].poller == Some(r)
  }

  predicate Counted(s: State, r: Ref) {
    r in s.records && r < s.nextRef && s.records[r].active == |Holders(s.waiters, r)|
  }

  /** A registered poll's record is the one its item's key leads to. */
  predicate Registered(s: State, x: Waiter) {
    x.poller.Some? ==> x.event in s.pollers && s.pollers[x.event] == x.poller.value
  }

  ghost predicate CountInv(s: State) {
    && (forall e <- s.pollers :: Counted(s, s.pollers[e]))
    && (forall e <- s.pollers, f <- s.pollers :: s.pollers[e] == s.pollers[f] ==> e == f)
    && (forall w <- s.waiters :: Registered(s, s.waiters[w]))
    && (forall r <- s.records :: r < s.nextRef)
  }

  lemma HoldersUnchanged(before: map<WaiterId, Waiter>, after: map<WaiterId, Waiter>, r: Ref)
    requires forall w :: (w in before && before[w].poller == Some(r)) <==> (w in after && after[w].poller == Some(r))
    ensures Holders(before, r) == Holders(after, r)
  {
  }

  /** Steps that leave every poll's record alone. */
  lemma SamePollersKeepCounts(s: State, t: State)
    requires CountInv(s)
    requires t.pollers == s.pollers && t.records == s.records && t.nextRef == s.nextRef
    requires forall w <- t.waiters :: if w in s.waiters
               then t.waiters[w].poller == s.waiters[w].poller && t.waiters[w].event == s.waiters[w].event
               else t.waiters[w].poller == None
    requires forall w <- s.waiters :: w in t.waiters || s.waiters[w].poller == None
    ensures CountInv(t)
  {
    forall e <- t.pollers ensures Counted(t, t.pollers[e]) {
      assert Counted(s, s.pollers[e]);
      HoldersUnchanged(s.waiters, t.waiters, s.pollers[e]);
    }
    forall w <- t.waiters ensures Registered(t, t.waiters[w]) {
      if w in s.waiters { assert Registered(s, s.waiters[w]); }
    }
  }

  lemma FinishKeepsCounts(s: State, w: WaiterId, aborted: bool)
    requires CountInv(s) && w in s.waiters
    ensures CountInv(Finish(s, w, aborted))
  {
    var x := s.waiters[w];
    assert Registered(s, x);
    var t := Finish(s, w, aborted);
    if x.poller.None? {
      SamePollersKeepCounts(s, t);
    } else {
      var r := x.poller.value;
      assert Counted(s, r);
      assert Holders(t.waiters, r) == Holders(s.waiters, r) - {w};
      forall e <- t.pollers ensures Counted(t, t.pollers[e]) {
        assert Counted(s, s.pollers[e]);
        if t.pollers[e] != r { HoldersUnchanged(s.waiters, t.waiters, t.pollers[e]); }
      }
      forall v <- t.waiters ensures Registered(t, t.waiters[v]) {
        assert Registered(s, s.waiters[v]);
        if s.waiters[v].poller == Some(r) {
          assert v in Holders(t.waiters, r);
        }
      }
    }
  }

  /** The record a poll registers with. */
  function Joined(s: State, w: WaiterId): Ref
    requires w in s.waiters
  {
    var e := s.waiters[w].event;
    if e in s.pollers && !Stale(s, e) then s.pollers[e] else s.nextRef
  }

  lemma StaleIsUnheld(s: State, e: EventId)
    requires CountInv(s) && e in s.pollers && Stale(s, e)
    ensures Holders(s.waiters, s.pollers[e]) == {}
  {
    assert Counted(s, s.pollers[e]);
  }

  lemma NewIsUnheld(s: State)
    requires CountInv(s)
    ensures Holders(s.waiters, s.nextRef) == {}
  {
    forall v <- s.waiters ensures s.waiters[v].poller != Some(s.nextRef) {
      assert Registered(s, s.waiters[v]);
      if s.waiters[v].poller.Some? { assert Counted(s, s.waiters[v].poller.value); }
    }
  }

  lemma RegisterHolds(s: State, w: WaiterId)
    requires w in s.waiters && s.waiters[w].poller.None?
    ensures |Holders(Register(s, w).waiters, Joined(s, w))| == |Holders(s.waiters, Joined(s, w))| + 1
  {
    var t, r := Register(s, w), Joined(s, w);
    assert t.waiters == s.waiters[w := s.waiters[w].(poller := Some(r))];
    assert Holders(t.waiters, r) == Holders(s.waiters, r) + {w};
  }

  lemma RegisterCountsItself(s: State, w: WaiterId)
    requires CountInv(s) && w in s.waiters && s.waiters[w].poller.None?
    ensures Counted(Register(s, w), Joined(s, w))
  {
    RegisterHolds(s, w);
    if s.waiters[w].event in s.pollers && !Stale(s, s.waiters[w].event) {
      assert Counted(s, Joined(s, w));
    } else {
      NewIsUnheld(s);
    }
  }

  lemma RegisterKeepsOther(s: State, w: WaiterId, e: EventId)
    requires CountInv(s) && w in s.waiters && s.waiters[w].poller.None?
    requires e in s.pollers && s.pollers[e] != Joined(s, w)
    ensures Counted(Register(s, w), s.pollers[e])
  {
    assert Counted(s, s.pollers[e]);
    HoldersUnchanged(s.waiters, Register(s, w).waiters, s.pollers[e]);
  }

  lemma RegisterKeepsApart(s: State, w: WaiterId, e: EventId)
    requires CountInv(s) && w in s.waiters && e in s.pollers && e != s.waiters[w].event
    ensures s.pollers[e] != Joined(s, w)
  {
    assert Counted(s, s.pollers[e]);
  }

  lemma RegisterKeepsRegistered(s: State, w: WaiterId, v: WaiterId)
    requires CountInv(s) && w in s.waiters && v in s.waiters
    ensures Registered(Register(s, w), Register(s, w).waiters[v])
  {
    var x := s.waiters[v];
    assert Registered(s, x);
    if v != w && x.poller.Some? {
      assert v in Holders(s.waiters, x.poller.value);
      if Stale(s, x.event) { StaleIsUnheld(s, x.event); }
    }
  }

  lemma RegisterKeepsCounts(s: State, w: WaiterId)
    requires CountInv(s) && w in s.waiters && s.waiters[w].poller.None?
    ensures CountInv(Register(s, w))
  {
    var t := Register(s, w);
    forall e <- t.pollers ensures Counted(t, t.pollers[e]) {
      if t.pollers[e] == Joined(s, w) { RegisterCountsItself(s, w); } else { RegisterKeepsOther(s, w, e); }
    }
    forall e <- t.pollers, f <- t.pollers | t.pollers[e] == t.pollers[f] ensures e == f {
      if e != s.waiters[w].event { RegisterKeepsApart(s, w, e); }
      if f != s.waiters[w].event { RegisterKeepsApart(s, w, f); }
    }
    forall v <- t.waiters ensures Registered(t, t.waiters[v]) {
      RegisterKeepsRegistered(s, w, v);
    }
  }

  lemma DecideKeepsCounts(s: State, w: WaiterId, late: bool)
    requires CountInv(s)
    ensures CountInv(Step(s, Decide(w, late)))
  {
    if w in s.waiters && s.waiters[w].phase.AtDecision? {
      if s.waiters[w].phase.resolved || late {
        FinishKeepsCounts(s, w, false);
      } else if s.waiters[w].poller.None? {
        RegisterKeepsCounts(s, w);
        SamePollersKeepCounts(Register(s, w), Park(Register(s, w), w));
      } else {
        SamePollersKeepCounts(s, Park(s, w));
      }
    }
  }

  lemma PollKeepsCounts(s: State, e: Event)
    requires CountInv(s) && (e.Start? || e.Read? || e.Continue?)
    ensures CountInv(Step(s, e))
  {
    if e.Continue? && e.w in s.waiters && s.waiters[e.w].phase == Parked && e.aborted {
      FinishKeepsCounts(s, e.w, true);
    } else {
      SamePollersKeepCounts(s, Step(s, e));
    }
  }

  lemma StepKeepsCounts(s: State, e: Event)
    requires CountInv(s)
    ensures CountInv(Step(s, e))
  {
    match e
    case Decide(w, late) => DecideKeepsCounts(s, w, late);
    case Start(_, _) => PollKeepsCounts(s, e);
    case Read(_) => PollKeepsCounts(s, e);
    case Continue(_, _) => PollKeepsCounts(s, e);
    case _ => SamePollersKeepCounts(s, Step(s, e));
  }

  lemma {:induction false} RunKeepsCounts(s: State, events: seq<Event>)
    requires Initial(s)
    ensures CountInv(Run(s, events))
  {
    if events != [] {
      RunKeepsCounts(s, events[..|events| - 1]);
      StepKeepsCounts(Run(s, events[..|events| - 1]), events[|events| - 1]);
    }
  }

  /** activeWaits of the store. */
  function ActiveWaits(s: State, e: EventId): int {
    if e in s.pollers && s.pollers[e] in s.records then s.records[s.pollers[e]].active else 0
  }

  /** The registered polls of one item that have not returned. */
  function Waiting(s: State, e: EventId): set<WaiterId> {
    set w | w in s.waiters && s.waiters[w].event == e && s.waiters[w].poller.Some?
  }

  /** Each item's active count is the number of its registered polls still waiting,
      although records are swept, dropped and shared. */
  lemma ActiveIsWaiting(s: State, events: seq<Event>, e: EventId)
    requires Initial(s)
    ensures ActiveWaits(Run(s, events), e) == |Waiting(Run(s, events), e)|
  {
    RunKeepsCounts(s, events);
    var t := Run(s, events);
    forall w <- t.waiters ensures Registered(t, t.waiters[w]) {}
    if e in t.pollers {
      assert Counted(t, t.pollers[e]);
      assert Waiting(t, e) == Holders(t.waiters, t.pollers[e]);
    } else {
      assert Waiting(t, e) == {};
    }
  }

  // ---------- what a poll comes to ----------

  lemma RunTwo(s: State, a: Event, b: Event)
    ensures Run(s, [a, b]) == Step(Step(s, a), b)
  {
    assert [a, b] == [] + [a] + [b];
    RunLast(s, [], a);
    RunLast(s, [] + [a], b);
  }

  lemma RunThree(s: State, a: Event, b: Event, c: Event)
    ensures Run(s, [a, b, c]) == Step(Step(Step(s, a), b), c)
  {
    assert [a, b, c] == [a, b] + [c];
    RunTwo(s, a, b);
    RunLast(s, [a, b], c);
  }

  /** A new poll on an item that is resolved, or a late one, returns with what it read. */
  lemma {:induction false} ResolvedReturnsAtOnce(s: State, w: WaiterId, e: EventId, late: bool)
    requires s.lock == Free && w !in s.waiters && (e in s.resolved || late)
    ensures Run(s, [Start(w, e), Read(w)]).waiters == s.waiters[w := Waiter(e, AtDecision(e in s.resolved), false, None)]
    ensures Run(s, [Start(w, e), Read(w), Decide(w, late)]) == s
  {
    RunTwo(s, Start(w, e), Read(w));
    RunThree(s, Start(w, e), Read(w), Decide(w, late));
    assert s.waiters[w := Waiter(e, Asking, false, None)][w := Waiter(e, AtDecision(e in s.resolved), false, None)] - {w} == s.waiters;
  }

  /** A poll on an open item waits, and its item has a live waiter. */
  lemma {:induction false} OpenIsWaitedFor(s: State, w: WaiterId, e: EventId)
    requires s.lock == Free && w !in s.waiters && e !in s.resolved
    ensures var t := Run(s, [Start(w, e), Read(w), Decide(w, false)]);
      && t.waiters.Keys == s.waiters.Keys + {w}
      && t.waiters[w].event == e && t.waiters[w].phase == Parked && t.waiters[w].poller.Some? && !t.waiters[w].fired
      && t.resolved == s.resolved && t.lock == Free
  {
    RunThree(s, Start(w, e), Read(w), Decide(w, false));
  }

  /** Resolving items wakes every poll of the session ... */
  lemma {:induction false} ResolutionWakes(s: State, ids: set<EventId>)
    requires s.lock == Free
    ensures var t := Run(s, [BeginResolve(ids), Commit, Saved]);
      && t.resolved == s.resolved + ids && t.lock == Free && t.waiters.Keys == s.waiters.Keys
      && (forall v <- t.waiters :: t.waiters[v] == s.waiters[v].(fired := true))
  {
    RunThree(s, BeginResolve(ids), Commit, Saved);
  }

  /** ... and those on a resolved item return with it; the others read again and park again. */
  lemma {:induction false} WokenReturns(s: State, w: WaiterId, late: bool)
    requires s.lock == Free && w in s.waiters && s.waiters[w].phase == Parked
    ensures var read := Run(s, [Continue(w, false), Read(w)]);
      w in read.waiters && read.waiters[w].phase == AtDecision(s.waiters[w].event in s.resolved)
    ensures var t := Run(s, [Continue(w, false), Read(w), Decide(w, late)]);
      if s.waiters[w].event in s.resolved || late then t.waiters == s.waiters - {w}
      else w in t.waiters && t.waiters[w].phase == Parked && !t.waiters[w].fired
  {
    var x := s.waiters[w];
    var asking, read := x.(phase := Asking, fired := false), x.(phase := AtDecision(x.event in s.resolved), fired := false);
    RunTwo(s, Continue(w, false), Read(w));
    RunThree(s, Continue(w, false), Read(w), Decide(w, late));
    assert Step(s, Continue(w, false)) == s.(waiters := s.waiters[w := asking]);
    var t := s.(waiters := s.waiters[w := read]);
    assert s.waiters[w := asking][w := read] == s.waiters[w := read];
    assert Run(s, [Continue(w, false), Read(w)]) == t;
    if x.event in s.resolved || late {
      assert Step(t, Decide(w, late)) == Finish(t, w, false);
      assert s.waiters[w := read] - {w} == s.waiters - {w};
    }
  }

  /** A save that fails before its rename resolves nothing. */
  lemma {:induction false} FailedResolvesNothing(s: State, ids: set<EventId>)
    requires s.lock == Free
    ensures Run(s, [BeginResolve(ids), SaveFailed]) == s
  {
    RunTwo(s, BeginResolve(ids), SaveFailed);
    assert s.orphaned + {} == s.orphaned;
  }

  /** hasLiveWaiter: somebody polls the item, or did ten seconds ago at most. */
  predicate LiveWaiter(s: State, e: EventId) {
    && e in s.pollers && s.pollers[e] in s.records
    && (s.records[s.pollers[e]].active > 0 || s.now <= s.records[s.pollers[e]].lastPollAt + WAITER_TTL_MS)
  }

  /** Between two polls of a client the item keeps a live waiter, for ten seconds ... */
  lemma {:induction false} GapIsBridged(s: State, w: WaiterId, ms: nat)
    requires CountInv(s) && w in s.waiters && s.waiters[w].phase.AtDecision? && Waiting(s, s.waiters[w].event) == {w}
    ensures var t := Run(s, [Decide(w, true), Tick(ms)]); LiveWaiter(t, s.waiters[w].event) <==> ms <= 10_000
  {
    RunTwo(s, Decide(w, true), Tick(ms));
    OnlyHolder(s, w);
  }

  /** ... but not once the last client has gone away. */
  lemma {:induction false} GoneIsNotLive(s: State, w: WaiterId)
    requires CountInv(s) && w in s.waiters && s.waiters[w].phase == Parked && Waiting(s, s.waiters[w].event) == {w}
    ensures !LiveWaiter(Step(s, Continue(w, true)), s.waiters[w].event)
  {
    OnlyHolder(s, w);
  }

  lemma {:induction false} OnlyHolder(s: State, w: WaiterId)
    requires CountInv(s) && w in s.waiters && Waiting(s, s.waiters[w].event) == {w}
    ensures var e := s.waiters[w].event;
      && e in s.pollers && s.waiters[w].poller == Some(s.pollers[e]) && Counted(s, s.pollers[e])
      && s.records[s.pollers[e]].active == 1
  {
    assert w in Waiting(s, s.waiters[w].event);
    assert Registered(s, s.waiters[w]);
    var r := s.pollers[s.waiters[w].event];
    assert Counted(s, r);
    assert Holders(s.waiters, r) == {w} by {
      forall v <- Holders(s.waiters, r) ensures v == w {
        assert Registered(s, s.waiters[v]) && Counted(s, r);
        assert v in Waiting(s, s.waiters[w].event);
      }
    }
  }

  /** A poll that starts to wait for one item takes no live waiter from another. */
  lemma {:induction false} OthersStayLive(s: State, w: WaiterId, late: bool, e: EventId)
    requires CountInv(s) && w in s.waiters && s.waiters[w].event != e && LiveWaiter(s, e)
    ensures LiveWaiter(Step(s, Decide(w, late)), e)
  {
    assert Counted(s, s.pollers[e]) && Registered(s, s.waiters[w]);
    if s.waiters[w].event in s.pollers { assert s.pollers[s.waiters[w].event] != s.pollers[e]; }
  }

  /** While somebody waits for an item, it has a live waiter. */
  lemma {:induction false} WaitingIsLive(s: State, events: seq<Event>, e: EventId)
    requires Initial(s) && Waiting(Run(s, events), e) != {}
    ensures LiveWaiter(Run(s, events), e)
  {
    RunKeepsCounts(s, events);
    ActiveIsWaiting(s, events, e);
    var t := Run(s, events);
    var w :| w in Waiting(t, e);
    assert Registered(t, t.waiters[w]);
    assert Counted(t, t.pollers[e]);
  }
}

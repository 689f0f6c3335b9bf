/** The per-key lock that the bridge builds out of promises. */
module AsyncLock {
  import opened Results

  // Every call waits for the promise it found in the map, puts its own in its place, and takes
  // it out again later if it is still there. The stores and the delivery engine rely on it.

  type Ticket = nat

  datatype Phase = Waiting | Running | Ended | Forgotten

  /** A call: the promise it found (None: the map had no entry) and how far it is. */
  datatype Call = Call(previous: Option<Ticket>, phase: Phase)

  /** Calls are numbered in the order in which they were made. */
  datatype State = State(entry: Option<Ticket>, calls: seq<Call>)

  datatype Event =
    | Enter             // the synchronous part of withLock
    | Begin(t: Ticket)  // the promise it waits for has settled
    | End(t: Ticket)    // the critical section returned or threw
    | Forget(t: Ticket) // the clean-up callback, any time later

  predicate Over(s: State, t: Ticket) {
    t < |s.calls| && (s.calls[t].phase == Ended || s.calls[t].phase == Forgotten)
  }

  predicate CanBegin(s: State, t: Ticket) {
    && t < |s.calls| && s.calls[t].phase == Waiting
    && (s.calls[t].previous.Some? ==> Over(s, s.calls[t].previous.value))
  }

  function Step(s: State, e: Event): State {
    match e
    case Enter => State(Some(|s.calls|), s.calls + [Call(s.entry, Waiting)])
    case Begin(t) => if CanBegin(s, t) then s.(calls := s.calls[t := s.calls[t].(phase := Running)]) else s
    case End(t) =>
      if t < |s.calls| && s.calls[t].phase == Running then s.(calls := s.calls[t := s.calls[t].(phase := Ended)]) else s
    case Forget(t) =>
      if t < |s.calls| && s.calls[t].phase == Ended then
        State(if s.entry == Some(t) then None else s.entry, s.calls[t := s.calls[t].(phase := Forgotten)])
      else s
  }

  const INITIAL := State(None, [])

  function Run(events: seq<Event>): State {
    if events == [] then INITIAL else Step(Run(events[..|events| - 1]), events[|events| - 1])
  }

  /** A call found either the call made just before it, or an empty map after everything was over. */
  ghost predicate Linked(s: State, t: Ticket)
    requires t < |s.calls|
  {
    match s.calls[t].previous
    case Some(u) => t == u + 1
    case None => forall u :: 0 <= u < t ==> Over(s, u)
  }

  ghost predicate Inv(s: State) {
    && (s.entry.Some? ==> |s.calls| == s.entry.value + 1)
    && (s.entry.None? ==> forall u :: 0 <= u < |s.calls| ==> Over(s, u))
    && (forall t :: 0 <= t < |s.calls| ==> Linked(s, t))
    && (forall t, u :: 0 <= u < t < |s.calls| && s.calls[t].phase != Waiting ==> Over(s, u))
  }

  lemma StepKeepsInv(s: State, e: Event)
    requires Inv(s)
    ensures Inv(Step(s, e))
  {
    var s' := Step(s, e);
    forall u | Over(s, u) ensures Over(s', u) {}
    forall t | 0 <= t < |s'.calls| ensures Linked(s', t) {
      if t < |s.calls| { assert Linked(s, t); }
    }
    if e.Begin? && CanBegin(s, e.t) {
      assert Linked(s, e.t);
      forall u | 0 <= u < e.t ensures Over(s, u) {
        if s.calls[e.t].previous.Some? && u < e.t - 1 {
          assert s.calls[e.t - 1].phase != Waiting;
        }
      }
    }
  }

  lemma {:induction false} RunKeepsInv(events: seq<Event>)
    ensures Inv(Run(events))
  {
    if events != [] {
      RunKeepsInv(events[..|events| - 1]);
      StepKeepsInv(Run(events[..|events| - 1]), events[|events| - 1]);
    }
  }

  /** At most one critical section is open, and every section made before it is over:
      mutual exclusion in call order, although map entries come and go. */
  lemma {:induction false} MutualExclusion(events: seq<Event>, t: Ticket)
    requires var s := Run(events); t < |s.calls| && s.calls[t].phase == Running
    ensures var s := Run(events);
      && (forall u :: 0 <= u < t ==> Over(s, u))
      && (forall u :: t < u < |s.calls| ==> s.calls[u].phase == Waiting)
  {
    RunKeepsInv(events);
    var s := Run(events);
    assert !Over(s, t);
  }

  /** Nothing is stuck: while a call waits, the first unfinished call is running or may begin. */
  lemma {:induction false} NoStall(events: seq<Event>, t: Ticket)
    requires var s := Run(events); t < |s.calls| && s.calls[t].phase == Waiting
    ensures var s := Run(events); exists u :: 0 <= u <= t && (s.calls[u].phase == Running || CanBegin(s, u))
    decreases t
  {
    RunKeepsInv(events);
    var s := Run(events);
    assert Linked(s, t);
    if !CanBegin(s, t) {
      var u := s.calls[t].previous.value;
      if s.calls[u].phase == Waiting { NoStall(events, u); }
      assert s.calls[u].phase == Running || s.calls[u].phase == Waiting;
    }
  }

  lemma {:induction false} RunNext(events: seq<Event>, e: Event)
    ensures Run(events + [e]) == Step(Run(events), e)
  {
    assert (events + [e])[..|events|] == events;
  }

  /** A call that may begin runs, ends and lets the next one begin. */
  lemma {:induction false} PassesOn(events: seq<Event>, t: Ticket)
    requires CanBegin(Run(events), t)
    ensures Run(events + [Begin(t)]).calls == Run(events).calls[t := Run(events).calls[t].(phase := Running)]
    ensures var s := Run(events + [Begin(t)] + [End(t)]);
      && s.calls == Run(events).calls[t := Run(events).calls[t].(phase := Ended)]
      && (t + 1 < |s.calls| && s.calls[t + 1].phase == Waiting ==> CanBegin(s, t + 1))
  {
    RunNext(events, Begin(t));
    RunNext(events + [Begin(t)], End(t));
    RunKeepsInv(events + [Begin(t)] + [End(t)]);
    var s := Run(events + [Begin(t)] + [End(t)]);
    if t + 1 < |s.calls| { assert Linked(s, t + 1); }
  }

  predicate Cleaned(s: State) {
    && (s.entry.Some? ==> s.entry.value < |s.calls| && s.calls[s.entry.value].phase != Forgotten)
    && (s.entry.None? ==> forall t :: 0 <= t < |s.calls| ==> Over(s, t))
  }

  /** When all calls were cleaned up after, the map has no entry of the key left. */
  lemma {:induction false} NoEntryIsLeft(events: seq<Event>)
    ensures Cleaned(Run(events))
    ensures (forall c <- Run(events).calls :: c.phase == Forgotten) ==> Run(events).entry.None?
  {
    if events != [] {
      NoEntryIsLeft(events[..|events| - 1]);
      RunKeepsInv(events);
    }
  }

  /** The clean-up of a call that ended is done once. */
  lemma {:induction false} CleansUp(events: seq<Event>, t: Ticket)
    requires t < |Run(events).calls| && Run(events).calls[t].phase == Ended
    ensures var s, u := Run(events), Run(events + [Forget(t)]);
      && u.calls == s.calls[t := s.calls[t].(phase := Forgotten)]
      && u.entry == if s.entry == Some(t) then None else s.entry
  {
    RunNext(events, Forget(t));
  }
}

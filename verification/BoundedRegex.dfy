/** Searching with a regular expression under a time limit: four workers at a time, a
    queue of sixteen, and slots that are handed on only when a worker is gone. A search
    that finds neither a slot nor a place in the queue is refused. */
module BoundedRegex {
  import opened Results

  const GREP_MAX_CONCURRENT: nat := 4
  const GREP_MAX_QUEUE: nat := 16

  /** The matching lines, or None for a search without a result. */
  type Outcome = Option<seq<nat>>

  // ---------- one worker ----------

  /** The variables of one runWorker call. `decided` lists the values offered to decide(),
      `resolved` the calls of resolve(). */
  datatype Worker = Worker(
    spawned: bool, settled: bool, exited: bool, terminated: bool, outcome: Outcome,
    decided: seq<Outcome>, resolved: seq<Outcome>)

  datatype Callback = Message(found: Outcome) | Error | Exit | Timeout

  function Spawn(works: bool): Worker {
    if works then Worker(true, false, false, false, None, [], [])
    else Worker(false, false, false, false, None, [], [None])
  }

  function Decide(w: Worker, value: Outcome): Worker {
    var w' := w.(decided := w.decided + [value]);
    if w.settled then w'
    else if w.exited then w'.(settled := true, outcome := value, resolved := w.resolved + [value])
    else w'.(settled := true, outcome := value, terminated := true)
  }

  function OnExit(w: Worker): Worker {
    var w' := w.(exited := true);
    if w.settled then w'.(resolved := w.resolved + [w.outcome]) else Decide(w', None)
  }

  /** A worker exits once; without a worker there are no callbacks, and no timer. */
  function React(w: Worker, c: Callback): Worker {
    if !w.spawned || (c == Exit && w.exited) then w
    else
      match c
      case Message(found) => Decide(w, found)
      case Error => Decide(w, None)
      case Exit => OnExit(w)
      case Timeout => if w.settled then w else Decide(w, None)
  }

  /** It resolves once, with the first decision, and not before the worker is gone. */
  predicate Sound(w: Worker) {
    && (w.settled <==> w.decided != [])
    && (w.settled ==> w.outcome == w.decided[0])
    && (if w.spawned then w.resolved == if w.exited then [w.outcome] else [] else w.resolved == [None] && !w.exited)
    && (w.spawned && w.exited ==> w.settled)
    && (w.spawned && w.settled && !w.exited ==> w.terminated)
  }

  lemma ReactKeepsSound(w: Worker, c: Callback)
    requires Sound(w)
    ensures Sound(React(w, c))
    ensures w.resolved <= React(w, c).resolved
  {
  }

  // ---------- all searches ----------

  datatype Search = Refused | Queued | Granted | Working(worker: Worker) | Done(outcome: Outcome, worker: Worker)

  /** A search that is over keeps what its worker did.
      `line` and `served` record who queued and who was handed a slot, in order. */
  datatype State = State(active: nat, waiters: seq<nat>, searches: seq<Search>, line: seq<nat>, served: seq<nat>)

  datatype Event =
    | Ask                                   // boundedMatchIndexes, up to acquireSlot
    | Begin(s: nat, works: bool)            // runWorker
    | Call(s: nat, callback: Callback)
    | Finish(s: nat)                        // the finally block

  const INITIAL := State(0, [], [], [], [])

  function Acquire(s: State): State {
    var n := |s.searches|;
    if s.active < GREP_MAX_CONCURRENT then s.(active := s.active + 1, searches := s.searches + [Granted])
    else if |s.waiters| >= GREP_MAX_QUEUE then s.(searches := s.searches + [Refused])
    else s.(waiters := s.waiters + [n], searches := s.searches + [Queued], line := s.line + [n])
  }

  function Release(s: State): State
    requires s.waiters == [] ==> s.active > 0
    requires s.waiters != [] ==> s.waiters[0] < |s.searches|
  {
    if s.waiters == [] then s.(active := s.active - 1)
    else
      var next := s.waiters[0];
      s.(waiters := s.waiters[1..], searches := s.searches[next := Granted], served := s.served + [next])
  }

  predicate Over(search: Search) {
    search.Working? && search.worker.resolved != []
  }

  function Ended(search: Search): Search
    requires Over(search)
  {
    Done(search.worker.resolved[0], search.worker)
  }

  function Step(s: State, e: Event): State
    requires Inv(s)
  {
    match e
    case Ask => Acquire(s)
    case Begin(n, works) =>
      if n < |s.searches| && s.searches[n] == Granted then s.(searches := s.searches[n := Working(Spawn(works))]) else s
    case Call(n, callback) =>
      if n < |s.searches| && s.searches[n].Working? then
        s.(searches := s.searches[n := Working(React(s.searches[n].worker, callback))])
      else s
    case Finish(n) =>
      if n < |s.searches| && Over(s.searches[n]) then
        HoldersCounted(s.searches, n);
        assert s.waiters != [] ==> Waits(s, 0);
        Release(s.(searches := s.searches[n := Ended(s.searches[n])]))
      else s
  }

  function Run(events: seq<Event>): (s: State)
    ensures Inv(s)
  {
    if events == [] then INITIAL
    else
      var before := Run(events[..|events| - 1]);
      StepKeepsInv(before, events[|events| - 1]);
      Step(before, events[|events| - 1])
  }

  predicate Holding(search: Search) {
    search == Granted || search.Working?
  }

  /** A worker thread that may still be running. */
  predicate Live(search: Search) {
    search.Working? && search.worker.spawned && !search.worker.exited
  }

  function Count(searches: seq<Search>, p: Search -> bool): nat {
    if searches == [] then 0
    else Count(searches[..|searches| - 1], p) + if p(searches[|searches| - 1]) then 1 else 0
  }

  predicate Waits(s: State, i: nat)
    requires i < |s.waiters|
  {
    s.waiters[i] < |s.searches| && s.searches[s.waiters[i]] == Queued
  }

  ghost predicate QueueInv(s: State) {
    && |s.waiters| <= GREP_MAX_QUEUE
    && (forall i :: 0 <= i < |s.waiters| ==> Waits(s, i))
    && (forall i, j :: 0 <= i < j < |s.waiters| ==> s.waiters[i] != s.waiters[j])
    && (forall n :: 0 <= n < |s.searches| && s.searches[n] == Queued ==> n in s.waiters)
    && s.line == s.served + s.waiters
  }

  predicate Fits(search: Search) {
    match search
    case Working(w) => Sound(w)
    case Done(outcome, w) => Sound(w) && w.resolved == [outcome]
    case _ => true
  }

  ghost predicate Inv(s: State) {
    && s.active == Count(s.searches, Holding) && s.active <= GREP_MAX_CONCURRENT
    && (s.waiters != [] ==> s.active == GREP_MAX_CONCURRENT)
    && QueueInv(s)
    && AllFit(s.searches)
  }

  ghost predicate AllFit(searches: seq<Search>) {
    forall n :: 0 <= n < |searches| ==> Fits(searches[n])
  }

  lemma AllFitMore(searches: seq<Search>, x: Search)
    requires AllFit(searches) && Fits(x)
    ensures AllFit(searches + [x])
  {
  }

  lemma AllFitUpdate(searches: seq<Search>, n: nat, x: Search)
    requires AllFit(searches) && n < |searches| && Fits(x)
    ensures AllFit(searches[n := x])
  {
  }

  lemma {:induction false} CountUpdate(searches: seq<Search>, p: Search -> bool, n: nat, x: Search)
    requires n < |searches|
    ensures Count(searches[n := x], p) + (if p(searches[n]) then 1 else 0) == Count(searches, p) + if p(x) then 1 else 0
  {
    var last := |searches| - 1;
    if n < last {
      assert searches[n := x][..last] == searches[..last][n := x];
      CountUpdate(searches[..last], p, n, x);
    } else {
      assert searches[n := x][..last] == searches[..last];
    }
  }

  lemma HoldersCounted(searches: seq<Search>, n: nat)
    requires n < |searches| && Holding(searches[n])
    ensures Count(searches, Holding) > 0
  {
    CountUpdate(searches, Holding, n, Refused);
  }

  lemma CountMore(searches: seq<Search>, p: Search -> bool, x: Search)
    ensures Count(searches + [x], p) == Count(searches, p) + if p(x) then 1 else 0
  {
    assert (searches + [x])[..|searches|] == searches;
  }

  /** A search that does not queue. */
  lemma JoinKeepsQueue(s: State, x: Search)
    requires QueueInv(s) && x != Queued
    ensures QueueInv(s.(searches := s.searches + [x]))
  {
    var t := s.(searches := s.searches + [x]);
    forall i | 0 <= i < |s.waiters| ensures Waits(t, i) {
      assert Waits(s, i);
    }
  }

  lemma QueueUpKeepsQueue(s: State)
    requires QueueInv(s) && |s.waiters| < GREP_MAX_QUEUE
    ensures QueueInv(s.(waiters := s.waiters + [|s.searches|], searches := s.searches + [Queued], line := s.line + [|s.searches|]))
  {
    var n := |s.searches|;
    var t := s.(waiters := s.waiters + [n], searches := s.searches + [Queued], line := s.line + [n]);
    forall i | 0 <= i < |t.waiters| ensures Waits(t, i) {
      if i < |s.waiters| { assert Waits(s, i); }
    }
    forall i | 0 <= i < |s.waiters| ensures s.waiters[i] != n {
      assert Waits(s, i);
    }
    forall k | 0 <= k < |t.searches| && t.searches[k] == Queued ensures k in t.waiters {
      if k == n { assert t.waiters[|s.waiters|] == n; } else { assert k in s.waiters; }
    }
    assert s.served + (s.waiters + [n]) == (s.served + s.waiters) + [n];
  }

  lemma GrantKeepsInv(s: State)
    requires Inv(s) && s.active < GREP_MAX_CONCURRENT
    ensures Inv(s.(active := s.active + 1, searches := s.searches + [Granted]))
  {
    CountMore(s.searches, Holding, Granted);
    AllFitMore(s.searches, Granted);
    JoinKeepsQueue(s, Granted);
  }

  lemma RefuseKeepsInv(s: State)
    requires Inv(s)
    ensures Inv(s.(searches := s.searches + [Refused]))
  {
    CountMore(s.searches, Holding, Refused);
    AllFitMore(s.searches, Refused);
    JoinKeepsQueue(s, Refused);
  }

  lemma QueueUpKeepsInv(s: State)
    requires Inv(s) && |s.waiters| < GREP_MAX_QUEUE && s.active == GREP_MAX_CONCURRENT
    ensures Inv(s.(waiters := s.waiters + [|s.searches|], searches := s.searches + [Queued], line := s.line + [|s.searches|]))
  {
    CountMore(s.searches, Holding, Queued);
    AllFitMore(s.searches, Queued);
    QueueUpKeepsQueue(s);
  }

  lemma AskKeepsInv(s: State)
    requires Inv(s)
    ensures Inv(Acquire(s))
  {
    if s.active < GREP_MAX_CONCURRENT {
      GrantKeepsInv(s);
    } else if |s.waiters| >= GREP_MAX_QUEUE {
      RefuseKeepsInv(s);
    } else {
      QueueUpKeepsInv(s);
    }
  }

  /** A search changes that neither queues nor leaves the queue. */
  lemma ChangeKeepsQueue(s: State, n: nat, x: Search)
    requires QueueInv(s) && n < |s.searches| && s.searches[n] != Queued && x != Queued
    ensures QueueInv(s.(searches := s.searches[n := x]))
  {
    var s' := s.(searches := s.searches[n := x]);
    forall i | 0 <= i < |s.waiters| ensures Waits(s', i) {
      assert Waits(s, i);
    }
  }

  lemma ReleaseKeepsInv(s: State, n: nat, x: Search)
    requires Inv(s) && n < |s.searches| && Holding(s.searches[n]) && x.Done? && Fits(x)
    ensures var t := s.(searches := s.searches[n := x]);
      && (t.waiters == [] ==> t.active > 0) && (t.waiters != [] ==> t.waiters[0] < |t.searches|)
      && Inv(Release(t))
  {
    var t := s.(searches := s.searches[n := x]);
    HoldersCounted(s.searches, n);
    ChangeKeepsQueue(s, n, x);
    CountUpdate(s.searches, Holding, n, x);
    AllFitUpdate(s.searches, n, x);
    if t.waiters != [] {
      assert Waits(t, 0);
      CountUpdate(t.searches, Holding, t.waiters[0], Granted);
      AllFitUpdate(t.searches, t.waiters[0], Granted);
      HandOverKeepsQueue(t);
    }
  }

  lemma HandOverKeepsQueue(t: State)
    requires QueueInv(t) && t.waiters != [] && t.waiters[0] < |t.searches|
    ensures QueueInv(t.(waiters := t.waiters[1..], searches := t.searches[t.waiters[0] := Granted],
                        served := t.served + [t.waiters[0]]))
  {
    var next := t.waiters[0];
    var u := t.(waiters := t.waiters[1..], searches := t.searches[next := Granted], served := t.served + [next]);
    forall i | 0 <= i < |u.waiters| ensures Waits(u, i) {
      assert Waits(t, i + 1) && u.waiters[i] == t.waiters[i + 1];
    }
    forall n | 0 <= n < |u.searches| && u.searches[n] == Queued ensures n in u.waiters {
      assert n in t.waiters && n != next;
    }
    assert t.served + t.waiters == (t.served + [next]) + t.waiters[1..];
  }

  /** A search changes that neither takes nor gives up its slot. */
  lemma ChangeKeepsInv(s: State, n: nat, x: Search)
    requires Inv(s) && n < |s.searches| && Holding(s.searches[n]) && Holding(x) && Fits(x)
    ensures Inv(s.(searches := s.searches[n := x]))
  {
    ChangeKeepsQueue(s, n, x);
    CountUpdate(s.searches, Holding, n, x);
    AllFitUpdate(s.searches, n, x);
  }

  lemma StepKeepsInv(s: State, e: Event)
    requires Inv(s)
    ensures Inv(Step(s, e))
  {
    if Step(s, e) != s {
      match e
      case Ask => AskKeepsInv(s);
      case Begin(n, works) => ChangeKeepsInv(s, n, Working(Spawn(works)));
      case Call(n, callback) =>
        assert Fits(s.searches[n]);
        ReactKeepsSound(s.searches[n].worker, callback);
        ChangeKeepsInv(s, n, Working(React(s.searches[n].worker, callback)));
      case Finish(n) =>
        assert Fits(s.searches[n]);
        ReleaseKeepsInv(s, n, Ended(s.searches[n]));
    }
  }

  lemma {:induction false} LiveAreHolding(searches: seq<Search>)
    ensures Count(searches, Live) <= Count(searches, Holding)
  {
    if searches != [] { LiveAreHolding(searches[..|searches| - 1]); }
  }

  /** However searches, answers, crashes and time-outs interleave: never more than four
      worker threads, never more than sixteen searches waiting. */
  lemma FourWorkersAtMost(events: seq<Event>)
    ensures Count(Run(events).searches, Live) <= 4
    ensures |Run(events).waiters| <= 16
  {
    LiveAreHolding(Run(events).searches);
  }

  /** Slots go to the waiting searches in the order in which they queued, and none is lost:
      whoever waits, waits for four others, and when nobody holds a slot, all are free. */
  lemma SlotsAreHandedOn(events: seq<Event>)
    ensures var s := Run(events);
            && s.line == s.served + s.waiters
            && (s.waiters != [] ==> Count(s.searches, Holding) == GREP_MAX_CONCURRENT)
            && ((forall n :: 0 <= n < |s.searches| ==> !Holding(s.searches[n])) ==> s.active == 0 && s.waiters == [])
  {
    var s := Run(events);
    if forall n :: 0 <= n < |s.searches| ==> !Holding(s.searches[n]) { NoneHolding(s.searches); }
  }

  lemma {:induction false} NoneHolding(searches: seq<Search>)
    requires forall n :: 0 <= n < |searches| ==> !Holding(searches[n])
    ensures Count(searches, Holding) == 0
  {
    if searches != [] { NoneHolding(searches[..|searches| - 1]); }
  }

  /** A search that has begun, whether it is over or not, resolves with the first decision
      made about it, once, and only when its worker has exited (or never started); when it
      is over, that is what its caller got. */
  lemma ResolvesWithFirstDecision(events: seq<Event>, n: nat)
    requires n < |Run(events).searches| && (Run(events).searches[n].Working? || Run(events).searches[n].Done?)
    ensures var search := Run(events).searches[n];
            var w := search.worker;
            && |w.resolved| <= 1
            && (w.resolved != [] <==> w.exited || !w.spawned)
            && (w.resolved != [] ==> w.resolved[0] == if w.spawned then w.decided[0] else None)
            && (search.Done? ==> w.resolved == [search.outcome])
  {
    assert Fits(Run(events).searches[n]);
  }

  lemma DoneStays(s: State, e: Event, n: nat)
    requires Inv(s) && n < |s.searches| && s.searches[n].Done?
    ensures n < |Step(s, e).searches| && Step(s, e).searches[n] == s.searches[n]
  {
    if s.waiters != [] { assert Waits(s, 0); }
  }

  ghost predicate Has(s: State, n: nat, x: Search) {
    n < |s.searches| && s.searches[n] == x
  }

  lemma NextStays(events: seq<Event>, e: Event, n: nat, x: Search)
    requires Has(Run(events), n, x) && x.Done?
    ensures Has(Run(events + [e]), n, x)
  {
    assert (events + [e])[..|events|] == events;
    DoneStays(Run(events), e, n);
  }

  /** What a caller got is never taken back. */
  lemma {:induction false} ResultStays(events: seq<Event>, more: seq<Event>, n: nat, x: Search)
    requires Has(Run(events), n, x) && x.Done?
    ensures Has(Run(events + more), n, x)
  {
    if more == [] {
      assert events + more == events;
    } else {
      var front, last := more[..|more| - 1], more[|more| - 1];
      assert more == front + [last];
      ResultStays(events, front, n, x);
      NextStays(events + front, last, n, x);
      assert (events + front) + [last] == events + more;
    }
  }

  // ---------- what a search comes to ----------

  lemma {:induction false} RunNext(events: seq<Event>, e: Event)
    ensures Run(events + [e]) == Step(Run(events), e)
  {
    assert (events + [e])[..|events|] == events;
  }

  /** What a callback says about the search. */
  function Verdict(c: Callback): Outcome {
    if c.Message? then c.found else None
  }

  function Calls(n: nat, callbacks: seq<Callback>): seq<Event> {
    seq(|callbacks|, i requires 0 <= i < |callbacks| => Call(n, callbacks[i]))
  }

  /** A search that has been decided, and whose worker is still there. */
  predicate DecidedAs(search: Search, value: Outcome) {
    search.Working? && search.worker.spawned && search.worker.settled && !search.worker.exited && search.worker.outcome == value
    && search.worker.resolved == []
  }

  predicate EndedAs(search: Search, value: Outcome) {
    Over(search) && search.worker.resolved[0] == value
  }

  lemma {:induction false} CallIs(s: State, n: nat, c: Callback)
    requires Inv(s) && n < |s.searches| && s.searches[n].Working?
    ensures Step(s, Call(n, c)) == s.(searches := s.searches[n := Working(React(s.searches[n].worker, c))])
  {
  }

  lemma {:induction false} ReactedDecided(w: Worker, value: Outcome, c: Callback)
    requires DecidedAs(Working(w), value)
    ensures if c == Exit then EndedAs(Working(React(w, c)), value) else DecidedAs(Working(React(w, c)), value)
  {
  }

  /** What is first heard of a worker. */
  lemma {:induction false} HeardFirst(s: State, n: nat, first: Callback)
    requires Inv(s) && n < |s.searches| && s.searches[n] == Granted
    ensures var a := Step(s, Begin(n, true));
      && Inv(a) && n < |a.searches| && a.searches[n].Working?
      && var b := Step(a, Call(n, first));
      && n < |b.searches|
      && if first == Exit then EndedAs(b.searches[n], None) else DecidedAs(b.searches[n], Verdict(first))
  {
    StepKeepsInv(s, Begin(n, true));
    var a := Step(s, Begin(n, true));
    assert a.searches[n] == Working(Spawn(true));
    CallIs(a, n, first);
  }

  ghost predicate StillDecided(events: seq<Event>, n: nat, value: Outcome) {
    n < |Run(events).searches| && DecidedAs(Run(events).searches[n], value)
  }

  lemma {:induction false} CallStays(events: seq<Event>, n: nat, c: Callback, value: Outcome)
    requires StillDecided(events, n, value) && c != Exit
    ensures StillDecided(events + [Call(n, c)], n, value)
  {
    var s := Run(events);
    RunNext(events, Call(n, c));
    CallIs(s, n, c);
    ReactedDecided(s.searches[n].worker, value, c);
  }

  lemma {:induction false} CallsNext(events: seq<Event>, n: nat, front: seq<Callback>, last: Callback)
    ensures events + Calls(n, front + [last]) == (events + Calls(n, front)) + [Call(n, last)]
  {
    assert Calls(n, front + [last]) == Calls(n, front) + [Call(n, last)];
  }

  lemma {:induction false} StaysDecided(events: seq<Event>, n: nat, callbacks: seq<Callback>, value: Outcome)
    requires StillDecided(events, n, value) && Exit !in callbacks
    ensures StillDecided(events + Calls(n, callbacks), n, value)
  {
    if callbacks == [] {
      assert events + Calls(n, callbacks) == events;
    } else {
      var front, last := callbacks[..|callbacks| - 1], callbacks[|callbacks| - 1];
      assert callbacks == front + [last];
      StaysDecided(events, n, front, value);
      CallsNext(events, n, front, last);
      CallStays(events + Calls(n, front), n, last, value);
    }
  }

  /** A search that was granted a slot and whose worker starts: the first that is heard of it,
      an answer, an error or the end of the time, is its result once the worker has exited,
      whatever is heard in between; a worker that exits first has no result. */
  lemma {:induction false} FirstHeardIsReturned(events: seq<Event>, n: nat, first: Callback, rest: seq<Callback>)
    requires n < |Run(events).searches| && Run(events).searches[n] == Granted && Exit !in rest
    ensures var all := events + [Begin(n, true)] + [Call(n, first)] + (if first == Exit then [] else Calls(n, rest) + [Call(n, Exit)]);
      var t := Run(all + [Finish(n)]);
      n < |t.searches| && t.searches[n].Done? && t.searches[n].outcome == Verdict(first)
  {
    var heard := events + [Begin(n, true)] + [Call(n, first)];
    if first == Exit {
      assert heard + [] == heard;
      ExitedIsHeard(events, n);
      EndsWith(heard, n, None);
    } else {
      FirstIsHeard(events, n, first);
      DecidedEnds(heard, n, rest, Verdict(first));
      assert heard + (Calls(n, rest) + [Call(n, Exit)]) == (heard + Calls(n, rest)) + [Call(n, Exit)];
    }
  }

  lemma {:induction false} FirstIsHeard(events: seq<Event>, n: nat, first: Callback)
    requires n < |Run(events).searches| && Run(events).searches[n] == Granted && first != Exit
    ensures StillDecided(events + [Begin(n, true)] + [Call(n, first)], n, Verdict(first))
  {
    RunNext(events, Begin(n, true));
    RunNext(events + [Begin(n, true)], Call(n, first));
    HeardFirst(Run(events), n, first);
  }

  lemma {:induction false} ExitedIsHeard(events: seq<Event>, n: nat)
    requires n < |Run(events).searches| && Run(events).searches[n] == Granted
    ensures var t := Run(events + [Begin(n, true)] + [Call(n, Exit)]); n < |t.searches| && EndedAs(t.searches[n], None)
  {
    RunNext(events, Begin(n, true));
    RunNext(events + [Begin(n, true)], Call(n, Exit));
    HeardFirst(Run(events), n, Exit);
  }

  lemma {:induction false} DecidedEnds(heard: seq<Event>, n: nat, rest: seq<Callback>, value: Outcome)
    requires StillDecided(heard, n, value) && Exit !in rest
    ensures var t := Run(heard + Calls(n, rest) + [Call(n, Exit)] + [Finish(n)]);
      n < |t.searches| && t.searches[n].Done? && t.searches[n].outcome == value
  {
    StaysDecided(heard, n, rest, value);
    var s := Run(heard + Calls(n, rest));
    RunNext(heard + Calls(n, rest), Call(n, Exit));
    CallIs(s, n, Exit);
    ReactedDecided(s.searches[n].worker, value, Exit);
    EndsWith(heard + Calls(n, rest) + [Call(n, Exit)], n, value);
  }

  lemma {:induction false} EndsWith(events: seq<Event>, n: nat, value: Outcome)
    requires n < |Run(events).searches| && Over(Run(events).searches[n]) && Run(events).searches[n].worker.resolved[0] == value
    ensures var t := Run(events + [Finish(n)]); n < |t.searches| && t.searches[n].Done? && t.searches[n].outcome == value
  {
    RunNext(events, Finish(n));
    var s := Run(events);
    if s.waiters != [] { assert Waits(s, 0); }
  }

  /** A worker that cannot be started leaves its search without a result. */
  lemma {:induction false} NoWorkerNoResult(events: seq<Event>, n: nat)
    requires n < |Run(events).searches| && Run(events).searches[n] == Granted
    ensures var t := Run(events + [Begin(n, false)] + [Finish(n)]); n < |t.searches| && t.searches[n].Done? && t.searches[n].outcome == None
  {
    RunNext(events, Begin(n, false));
    EndsWith(events + [Begin(n, false)], n, None);
  }

  /** A new search is granted a slot while fewer than four are held, queues while fewer than
      sixteen wait, and is refused otherwise. */
  lemma {:induction false} AskedIs(events: seq<Event>)
    ensures var s, t := Run(events), Run(events + [Ask]);
      && |t.searches| == |s.searches| + 1
      && t.searches[|s.searches|] == (if Count(s.searches, Holding) < 4 then Granted else if |s.waiters| < 16 then Queued else Refused)
      && t.waiters == (if t.searches[|s.searches|] == Queued then s.waiters + [|s.searches|] else s.waiters)
  {
    RunNext(events, Ask);
  }

  /** A search that ends wakes the one that has waited longest. */
  lemma {:induction false} LongestWaitingIsWoken(events: seq<Event>, n: nat)
    requires n < |Run(events).searches| && Over(Run(events).searches[n]) && Run(events).waiters != []
    ensures var s, t := Run(events), Run(events + [Finish(n)]);
      s.waiters[0] < |t.searches| && t.searches[s.waiters[0]] == Granted && t.waiters == s.waiters[1..]
  {
    RunNext(events, Finish(n));
    WokenIs(Run(events), n);
  }

  lemma {:induction false} WokenIs(s: State, n: nat)
    requires Inv(s) && n < |s.searches| && Over(s.searches[n]) && s.waiters != []
    ensures var t := Step(s, Finish(n));
      s.waiters[0] < |t.searches| && t.searches[s.waiters[0]] == Granted && t.waiters == s.waiters[1..]
  {
    assert Waits(s, 0);
  }

  // ---------- the variables themselves ----------

  /** The variables of one runWorker call, and what the model records of it. */
  class Runner {
    var settled: bool
    var exited: bool
    var outcome: Outcome
    ghost var terminated: bool
    ghost var decided: seq<Outcome>
    ghost var resolved: seq<Outcome>

    ghost function Now(): Worker
      reads this
    {
      Worker(true, settled, exited, terminated, outcome, decided, resolved)
    }

    constructor ()
      ensures Now() == Spawn(true)
    {
      settled, exited, outcome, terminated := false, false, None, false;
      decided, resolved := [], [];
    }

    method Resolve(value: Outcome)
      modifies this`resolved
      ensures resolved == old(resolved) + [value]
    {
      resolved := resolved + [value];
    }

    method DecideOn(value: Outcome)
      modifies this
      ensures Now() == Decide(old(Now()), value)
    {
      decided := decided + [value];
      if settled { return; }
      settled := true;
      outcome := value;
      if exited {
        Resolve(outcome);
        return;
      }
      terminated := true;
    }

    method Exited()
      modifies this
      ensures Now() == OnExit(old(Now()))
    {
      exited := true;
      if settled { Resolve(outcome); } else { DecideOn(None); }
    }
  }

  class Pool {
    var active: nat
    var waiters: seq<nat>
    ghost var state: State

    ghost predicate Valid()
      reads this
    {
      Inv(state) && active == state.active && waiters == state.waiters
    }

    constructor ()
      ensures Valid() && state == INITIAL
    {
      active, waiters, state := 0, [], INITIAL;
    }

    /** acquireSlot for search `n`: granted, refused, or None while it waits. */
    method AcquireSlot(n: nat) returns (r: Option<bool>)
      requires Valid() && n == |state.searches|
      modifies this
      ensures Valid() && state == Step(old(state), Ask)
      ensures state.searches[n] == match r case Some(granted) => (if granted then Granted else Refused) case None => Queued
      ensures r == Some(true) <==> old(active) < 4
      ensures r == Some(false) <==> old(active) >= 4 && |old(waiters)| >= 16
      ensures active == (if r == Some(true) then old(active) + 1 else old(active))
      ensures waiters == (if r.None? then old(waiters) + [n] else old(waiters))
    {
      StepKeepsInv(state, Ask);
      state := Step(state, Ask);
      if active < GREP_MAX_CONCURRENT {
        active := active + 1;
        return Some(true);
      }
      if |waiters| >= GREP_MAX_QUEUE { return Some(false); }
      waiters := waiters + [n];
      return None;
    }

    /** releaseSlot at the end of search `n`; returns the search it wakes. */
    method ReleaseSlot(n: nat) returns (woken: Option<nat>)
      requires Valid() && n < |state.searches| && Over(state.searches[n])
      modifies this
      ensures Valid() && state == Step(old(state), Finish(n))
      ensures woken.Some? ==>
                && woken.value < |old(state.searches)| == |state.searches|
                && old(state.searches)[woken.value] == Queued && state.searches[woken.value] == Granted
      ensures woken == if old(waiters) == [] then None else Some(old(waiters)[0])
      ensures waiters == if old(waiters) == [] then [] else old(waiters)[1..]
      ensures active == if woken.None? then old(active) - 1 else old(active)
    {
      StepKeepsInv(state, Finish(n));
      HoldersCounted(state.searches, n);
      assert waiters != [] ==> Waits(state, 0);
      state := Step(state, Finish(n));
      if |waiters| > 0 {
        woken := Some(waiters[0]);
        waiters := waiters[1..];
      } else {
        active := active - 1;
        woken := None;
      }
    }
  }
}

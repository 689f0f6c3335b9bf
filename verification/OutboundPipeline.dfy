/** The outbound pipeline: jobs are prepared one at a time in the order they were
    accepted, and their packets go out in that order through a bounded window. */
module OutboundPipeline {

  const MAX_QUEUED: nat := 100
  const MAX_IN_FLIGHT_PACKETS: nat := 64
  const MAX_IN_FLIGHT_BYTES: nat := 2 * 1024 * 1024

  /** A JavaScript number given as a size. */
  datatype Size = Finite(n: int) | NotFinite

  datatype Packet = Packet(id: nat, size: Size)

  type Job = nat

  datatype Preparation = Packets(packets: seq<Packet>) | PrepareFailed

  /** The async function that drains the queue: not running, awaiting prepare(), or
      awaiting room for the first packet of `rest`; `woken` once its promise resolved. */
  datatype Sender =
    | Stopped
    | Preparing(job: Job)
    | AwaitingRoom(job: Job, rest: seq<Packet>, woken: bool)

  /** Sizes that are not positive finite numbers count as zero. */
  function Bytes(p: Packet): nat {
    if p.size.Finite? && p.size.n > 0 then p.size.n else 0
  }

  function TotalBytes(packets: seq<Packet>): nat {
    if packets == [] then 0 else TotalBytes(packets[..|packets| - 1]) + Bytes(packets[|packets| - 1])
  }

  lemma {:induction false} TotalBytesRemove(packets: seq<Packet>, i: nat)
    requires i < |packets|
    ensures TotalBytes(packets[..i] + packets[i + 1..]) + Bytes(packets[i]) == TotalBytes(packets)
  {
    var front, last := packets[..|packets| - 1], packets[|packets| - 1];
    if i == |packets| - 1 {
      assert packets[..i] + packets[i + 1..] == front;
    } else {
      TotalBytesRemove(front, i);
      assert packets[..i] + packets[i + 1..] == (front[..i] + front[i + 1..]) + [last];
      assert (packets[..i] + packets[i + 1..])[..|packets| - 2] == front[..i] + front[i + 1..];
    }
  }

  lemma TotalBytesAdd(packets: seq<Packet>, p: Packet)
    ensures TotalBytes(packets + [p]) == TotalBytes(packets) + Bytes(p)
  {
    assert (packets + [p])[..|packets|] == packets;
  }

  /** The packets of a list of prepared jobs, one job after the other. */
  function Flatten(prepared: seq<(Job, seq<Packet>)>): seq<Packet> {
    if prepared == [] then [] else Flatten(prepared[..|prepared| - 1]) + prepared[|prepared| - 1].1
  }

  function Jobs(prepared: seq<(Job, seq<Packet>)>): seq<Job> {
    seq(|prepared|, i requires 0 <= i < |prepared| => prepared[i].0)
  }

  predicate RoomFor(packets: nat, bytes: nat, size: nat) {
    packets < MAX_IN_FLIGHT_PACKETS && (packets == 0 || bytes + size <= MAX_IN_FLIGHT_BYTES)
  }

  // ---------- the pipeline on values ----------

  /** What is queued, sent and waiting, and what was accepted, prepared, sent and
      resolved so far, in order. */
  datatype State = State(
    jobs: seq<Job>,
    sender: Sender,
    inFlight: seq<Packet>,
    idleWaiters: seq<nat>,
    accepted: seq<Job>,
    prepared: seq<(Job, seq<Packet>)>,
    sent: seq<Packet>,
    resolved: seq<nat>)

  const START := State([], Stopped, [], [], [], [], [], [])

  datatype Event =
    | EnqueueJob(job: Job)
    | PreparedWith(result: Preparation)
    | Resumed
    | Reply(i: nat)
    | AskIdle(waiter: nat)

  function Queued(s: State): nat {
    |s.jobs| + if s.sender.Stopped? then 0 else 1
  }

  predicate Busy(s: State) {
    Queued(s) != 0 || s.inFlight != []
  }

  /** The packets of the current job that are still to go. */
  function Rest(s: State): seq<Packet> {
    if s.sender.AwaitingRoom? then s.sender.rest else []
  }

  predicate Room(inFlight: seq<Packet>, p: Packet) {
    RoomFor(|inFlight|, TotalBytes(inFlight), Bytes(p))
  }

  /** How many packets go out before one does not fit. */
  function Fit(rest: seq<Packet>, inFlight: seq<Packet>): (k: nat)
    ensures k <= |rest|
    decreases |rest|
  {
    if rest != [] && Room(inFlight, rest[0]) then 1 + Fit(rest[1..], inFlight + [rest[0]]) else 0
  }

  /** Idle promises resolve when nothing is queued or in flight. */
  function Notify(s: State): State {
    if Busy(s) then s else s.(idleWaiters := [], resolved := s.resolved + s.idleWaiters)
  }

  /** No job is current: the next one is prepared, or the sender stops. */
  function Next(s: State): State {
    if s.jobs != [] then s.(sender := Preparing(s.jobs[0]), jobs := s.jobs[1..])
    else Notify(s.(sender := Stopped))
  }

  function Send(s: State, packets: seq<Packet>): State {
    s.(inFlight := s.inFlight + packets, sent := s.sent + packets)
  }

  function Go(s: State, job: Job, rest: seq<Packet>): State {
    var k := Fit(rest, s.inFlight);
    var t := Send(s, rest[..k]);
    if k < |rest| then t.(sender := AwaitingRoom(job, rest[k..], false)) else Next(t)
  }

  /** A preparation that fails counts as no packets. */
  function PacketsOf(result: Preparation): seq<Packet> {
    if result.Packets? then result.packets else []
  }

  function Take(s: State, job: Job): State {
    var t := s.(jobs := s.jobs + [job], accepted := s.accepted + [job]);
    if s.sender.Stopped? then Next(t) else t
  }

  function Prepare(s: State, packets: seq<Packet>): State
    requires s.sender.Preparing?
  {
    Go(s.(prepared := s.prepared + [(s.sender.job, packets)]), s.sender.job, packets)
  }

  function Without<T>(xs: seq<T>, i: nat): seq<T>
    requires i < |xs|
  {
    xs[..i] + xs[i + 1..]
  }

  function Land(s: State, i: nat): State
    requires i < |s.inFlight|
  {
    Notify(s.(inFlight := Without(s.inFlight, i),
              sender := if s.sender.AwaitingRoom? then s.sender.(woken := true) else s.sender))
  }

  /** What one event does; one that cannot happen now changes nothing. */
  function Step(s: State, e: Event): State {
    match e
    case EnqueueJob(job) => if Queued(s) < MAX_QUEUED then Take(s, job) else s
    case PreparedWith(result) => if s.sender.Preparing? then Prepare(s, PacketsOf(result)) else s
    case Resumed => if s.sender.AwaitingRoom? && s.sender.woken then Go(s, s.sender.job, s.sender.rest) else s
    case Reply(i) => if i < |s.inFlight| then Land(s, i) else s
    case AskIdle(waiter) => if Busy(s) then s.(idleWaiters := s.idleWaiters + [waiter]) else s
  }

  function Play(s: State, events: seq<Event>): State {
    if events == [] then s else Step(Play(s, events[..|events| - 1]), events[|events| - 1])
  }

  // ---------- what every event keeps ----------

  predicate Window(inFlight: seq<Packet>) {
    && |inFlight| <= MAX_IN_FLIGHT_PACKETS
    && (TotalBytes(inFlight) <= MAX_IN_FLIGHT_BYTES || |inFlight| == 1)
  }

  /** First in, first out: what was sent and what is still to be sent of the current
      job are exactly the prepared packets; what was prepared, is being prepared and
      is queued are exactly the accepted jobs. */
  predicate Fifo(s: State) {
    && Flatten(s.prepared) == s.sent + Rest(s)
    && s.accepted == Jobs(s.prepared) + (if s.sender.Preparing? then [s.sender.job] else []) + s.jobs
  }

  predicate Inv(s: State) {
    && Window(s.inFlight)
    && Fifo(s)
    && Queued(s) <= MAX_QUEUED
    && (s.sender.Stopped? ==> s.jobs == [])
    && (s.sender.AwaitingRoom? ==> s.sender.rest != [])
    && (s.sender.AwaitingRoom? && !s.sender.woken ==> !Room(s.inFlight, s.sender.rest[0]))
    && (s.idleWaiters != [] ==> Busy(s))
  }

  /** All of the current job's packets are sent. */
  predicate BetweenJobs(s: State) {
    && Flatten(s.prepared) == s.sent
    && s.accepted == Jobs(s.prepared) + s.jobs
  }

  lemma {:induction false} FitFills(rest: seq<Packet>, inFlight: seq<Packet>)
    requires Window(inFlight)
    ensures Window(inFlight + rest[..Fit(rest, inFlight)])
    ensures Fit(rest, inFlight) < |rest| ==> !Room(inFlight + rest[..Fit(rest, inFlight)], rest[Fit(rest, inFlight)])
    decreases |rest|
  {
    var k := Fit(rest, inFlight);
    if k == 0 {
      assert inFlight + rest[..0] == inFlight;
    } else {
      var more := inFlight + [rest[0]];
      TotalBytesAdd(inFlight, rest[0]);
      FitFills(rest[1..], more);
      assert more + rest[1..][..k - 1] == inFlight + rest[..k];
    }
  }

  lemma NextKeepsInv(s: State)
    requires Window(s.inFlight) && BetweenJobs(s) && |s.jobs| <= MAX_QUEUED
    ensures Inv(Next(s))
  {
    if s.jobs == [] {
      assert Jobs(s.prepared) + [] + [] == Jobs(s.prepared) + [];
      assert s.sent + [] == s.sent;
    } else {
      assert Jobs(s.prepared) + [s.jobs[0]] + s.jobs[1..] == Jobs(s.prepared) + s.jobs;
      assert s.sent + [] == s.sent;
    }
  }

  lemma GoKeepsInv(s: State, job: Job, rest: seq<Packet>)
    requires Window(s.inFlight) && |s.jobs| < MAX_QUEUED
    requires Flatten(s.prepared) == s.sent + rest && s.accepted == Jobs(s.prepared) + s.jobs
    ensures Inv(Go(s, job, rest))
  {
    var k := Fit(rest, s.inFlight);
    FitFills(rest, s.inFlight);
    assert s.sent + rest == s.sent + rest[..k] + rest[k..];
    if k < |rest| {
      assert Jobs(s.prepared) + [] + s.jobs == Jobs(s.prepared) + s.jobs;
    } else {
      assert s.sent + rest[..k] + [] == s.sent + rest[..k];
      NextKeepsInv(Send(s, rest[..k]));
    }
  }

  lemma PreparedGrows(prepared: seq<(Job, seq<Packet>)>, job: Job, packets: seq<Packet>)
    ensures Jobs(prepared + [(job, packets)]) == Jobs(prepared) + [job]
    ensures Flatten(prepared + [(job, packets)]) == Flatten(prepared) + packets
  {
    assert (prepared + [(job, packets)])[..|prepared|] == prepared;
  }

  lemma TakeKeepsInv(s: State, job: Job)
    requires Inv(s) && Queued(s) < MAX_QUEUED
    ensures Inv(Take(s, job))
  {
    var t := s.(jobs := s.jobs + [job], accepted := s.accepted + [job]);
    if s.sender.Stopped? {
      assert t.accepted == Jobs(t.prepared) + t.jobs;
      NextKeepsInv(t);
    } else {
      assert t.accepted == Jobs(t.prepared) + (if t.sender.Preparing? then [t.sender.job] else []) + t.jobs;
    }
  }

  lemma PrepareKeepsInv(s: State, packets: seq<Packet>)
    requires Inv(s) && s.sender.Preparing?
    ensures Inv(Prepare(s, packets))
  {
    PreparedGrows(s.prepared, s.sender.job, packets);
    assert s.sent + [] == s.sent;
    GoKeepsInv(s.(prepared := s.prepared + [(s.sender.job, packets)]), s.sender.job, packets);
  }

  lemma ResumeKeepsInv(s: State)
    requires Inv(s) && s.sender.AwaitingRoom?
    ensures Inv(Go(s, s.sender.job, s.sender.rest))
  {
    assert Jobs(s.prepared) + [] + s.jobs == Jobs(s.prepared) + s.jobs;
    GoKeepsInv(s, s.sender.job, s.sender.rest);
  }

  lemma LandKeepsInv(s: State, i: nat)
    requires Inv(s) && i < |s.inFlight|
    ensures Inv(Land(s, i))
  {
    TotalBytesRemove(s.inFlight, i);
    LandLeaves(s, i);
  }

  lemma LandLeaves(s: State, i: nat)
    requires i < |s.inFlight| && Fifo(s)
    ensures Fifo(Land(s, i))
  {
  }

  lemma StepKeepsInv(s: State, e: Event)
    requires Inv(s)
    ensures Inv(Step(s, e))
  {
    match e
    case EnqueueJob(job) => if Queued(s) < MAX_QUEUED { TakeKeepsInv(s, job); }
    case PreparedWith(result) => if s.sender.Preparing? { PrepareKeepsInv(s, PacketsOf(result)); }
    case Resumed => if s.sender.AwaitingRoom? && s.sender.woken { ResumeKeepsInv(s); }
    case Reply(i) => if i < |s.inFlight| { LandKeepsInv(s, i); }
    case AskIdle(waiter) =>
  }

  lemma {:induction false} PlayKeepsInv(s: State, events: seq<Event>)
    requires Inv(s)
    ensures Inv(Play(s, events))
  {
    if events != [] {
      PlayKeepsInv(s, events[..|events| - 1]);
      StepKeepsInv(Play(s, events[..|events| - 1]), events[|events| - 1]);
    }
  }

  /** A sender that waits always has a packet in flight whose reply will wake it. */
  lemma WaitingHasPacketInFlight(s: State)
    requires Inv(s) && s.sender.AwaitingRoom? && !s.sender.woken
    ensures s.inFlight != []
  {
  }

  // ---------- the pipeline in place ----------

  class Pipeline {
    var jobs: seq<Job>
    var queued: nat
    var inFlightPackets: nat
    var inFlightBytes: nat
    var sender: Sender
    var idleWaiters: seq<nat>
    /** The outstanding send() promises, one per packet whose reply has not arrived. */
    var inFlight: seq<Packet>

    /** Everything accepted, everything prepared, everything sent, in order. */
    ghost var accepted: seq<Job>
    ghost var prepared: seq<(Job, seq<Packet>)>
    ghost var sent: seq<Packet>
    /** The idle() promises resolved so far. */
    ghost var resolved: seq<nat>

    ghost function Now(): State
      reads this
    {
      State(jobs, sender, inFlight, idleWaiters, accepted, prepared, sent, resolved)
    }

    /** The two counters of the window say what is in flight. */
    ghost predicate Counted()
      reads this`inFlightPackets, this`inFlightBytes, this`inFlight
    {
      inFlightPackets == |inFlight| && inFlightBytes == TotalBytes(inFlight)
    }

    ghost predicate Valid()
      reads this
    {
      Counted() && queued == Queued(Now()) && Inv(Now())
    }

    constructor ()
      ensures Valid() && Now() == START
    {
      jobs, queued, inFlightPackets, inFlightBytes, sender, idleWaiters := [], 0, 0, 0, Stopped, [];
      accepted, prepared, sent, inFlight, resolved := [], [], [], [], [];
    }

    method NotifyIdle()
      requires Counted() && queued == Queued(Now())
      modifies this`idleWaiters, this`resolved
      ensures Now() == Notify(old(Now()))
    {
      if queued != 0 || inFlightPackets != 0 || |idleWaiters| == 0 {
        assert resolved + [] == resolved;
        return;
      }
      resolved := resolved + idleWaiters;
      idleWaiters := [];
    }

    /** The head of run()'s loop: start the next job, or stop. */
    method NextJob()
      requires Counted() && queued == |jobs|
      modifies this`jobs, this`sender, this`idleWaiters, this`resolved
      ensures Now() == Next(old(Now())) && queued == Queued(Now())
    {
      if |jobs| > 0 {
        sender := Preparing(jobs[0]);
        jobs := jobs[1..];
      } else {
        sender := Stopped;
        NotifyIdle();
      }
    }

    method SendPacket(packet: Packet)
      requires Counted() && Window(inFlight) && Room(inFlight, packet)
      modifies this`inFlightPackets, this`inFlightBytes, this`sent, this`inFlight
      ensures Counted() && Window(inFlight)
      ensures sent == old(sent) + [packet] && inFlight == old(inFlight) + [packet]
      ensures inFlightPackets == old(inFlightPackets) + 1
      ensures inFlightBytes == old(inFlightBytes) + match packet.size case Finite(n) => (if n > 0 then n else 0) case NotFinite => 0
    {
      TotalBytesAdd(inFlight, packet);
      inFlightPackets := inFlightPackets + 1;
      inFlightBytes := inFlightBytes + Bytes(packet);
      sent := sent + [packet];
      inFlight := inFlight + [packet];
    }

    /** Send the longest run of packets that fits. */
    method SendFitting(rest: seq<Packet>) returns (k: nat)
      requires Counted() && Window(inFlight)
      modifies this`inFlightPackets, this`inFlightBytes, this`sent, this`inFlight
      ensures Counted() && k == Fit(rest, old(inFlight))
      ensures sent == old(sent) + rest[..k] && inFlight == old(inFlight) + rest[..k]
    {
      k := 0;
      while k < |rest| && RoomFor(inFlightPackets, inFlightBytes, Bytes(rest[k]))
        invariant k <= |rest| && Counted() && Window(inFlight)
        invariant sent == old(sent) + rest[..k] && inFlight == old(inFlight) + rest[..k]
        invariant Fit(rest, old(inFlight)) == k + Fit(rest[k..], inFlight)
      {
        assert rest[..k + 1] == rest[..k] + [rest[k]];
        assert rest[k..][1..] == rest[k + 1..];
        SendPacket(rest[k]);
        k := k + 1;
      }
    }

    /** The rest of processJob: send until a packet does not fit, then wait for room;
        when all are gone, the job is done and the next one starts. */
    method SendRest(job: Job, rest: seq<Packet>)
      requires Counted() && Window(inFlight) && queued == |jobs| + 1
      modifies this
      ensures Counted() && Now() == Go(old(Now()), job, rest) && queued == Queued(Now())
    {
      var k := SendFitting(rest);
      if k < |rest| {
        sender := AwaitingRoom(job, rest[k..], false);
      } else {
        queued := queued - 1;
        NextJob();
      }
    }

    method Enqueue(job: Job) returns (ok: bool)
      requires Valid()
      modifies this
      ensures Valid() && Now() == Step(old(Now()), EnqueueJob(job))
      ensures ok <==> old(queued) < MAX_QUEUED
    {
      StepKeepsInv(Now(), EnqueueJob(job));
      if queued >= MAX_QUEUED { return false; }
      queued := queued + 1;
      jobs := jobs + [job];
      accepted := accepted + [job];
      if sender.Stopped? { NextJob(); }
      return true;
    }

    /** prepare() settled: a failure counts as no packets. */
    method Prepared(result: Preparation)
      requires Valid() && sender.Preparing?
      modifies this
      ensures Valid() && Now() == Step(old(Now()), PreparedWith(result))
    {
      StepKeepsInv(Now(), PreparedWith(result));
      var job := sender.job;
      var packets := if result.Packets? then result.packets else [];
      prepared := prepared + [(job, packets)];
      SendRest(job, packets);
    }

    /** The sender continues after its promise resolved, and looks again. */
    method Resume()
      requires Valid() && sender.AwaitingRoom? && sender.woken
      modifies this
      ensures Valid() && Now() == Step(old(Now()), Resumed)
    {
      StepKeepsInv(Now(), Resumed);
      if !RoomFor(inFlightPackets, inFlightBytes, Bytes(sender.rest[0])) {
        NothingFits(Now());
        sender := sender.(woken := false);
        return;
      }
      SendRest(sender.job, sender.rest);
    }

    /** The reply of the i-th packet in flight arrived, with success or failure. The
        callback remembers what that packet counted for. */
    method Settle(i: nat)
      requires Valid() && i < |inFlight|
      modifies this
      ensures Valid() && Now() == Step(old(Now()), Reply(i))
    {
      StepKeepsInv(Now(), Reply(i));
      ghost var before := Now();
      TakeOff(i);
      if sender.AwaitingRoom? { sender := sender.(woken := true); }
      assert Now() == before.(inFlight := Without(before.inFlight, i), sender := sender);
      NotifyIdle();
    }

    /** What a packet counted for is given back. */
    method TakeOff(i: nat)
      requires Counted() && i < |inFlight|
      modifies this`inFlightPackets, this`inFlightBytes, this`inFlight
      ensures Counted() && inFlight == Without(old(inFlight), i)
    {
      TotalBytesRemove(inFlight, i);
      inFlightPackets := inFlightPackets - 1;
      inFlightBytes := inFlightBytes - Bytes(inFlight[i]);
      inFlight := inFlight[..i] + inFlight[i + 1..];
    }

    method Idle(waiter: nat) returns (immediate: bool)
      requires Valid()
      modifies this`idleWaiters
      ensures Valid() && Now() == Step(old(Now()), AskIdle(waiter))
      ensures immediate <==> queued == 0 && inFlightPackets == 0
      ensures idleWaiters == if immediate then old(idleWaiters) else old(idleWaiters) + [waiter]
    {
      StepKeepsInv(Now(), AskIdle(waiter));
      if queued == 0 && inFlightPackets == 0 { return true; }
      idleWaiters := idleWaiters + [waiter];
      return false;
    }
  }

  lemma NothingFits(s: State)
    requires s.sender.AwaitingRoom? && s.sender.rest != [] && !Room(s.inFlight, s.sender.rest[0])
    ensures Go(s, s.sender.job, s.sender.rest) == s.(sender := s.sender.(woken := false))
  {
    assert s.inFlight + [] == s.inFlight && s.sent + [] == s.sent;
  }

  // ---------- whole runs ----------

  /** Any sequence of callers' and promises' events, on the object. */
  method Run(events: seq<Event>) returns (p: Pipeline)
    ensures fresh(p) && p.Valid()
    ensures p.Now() == Play(START, events)
  {
    p := new Pipeline();
    for k := 0 to |events|
      invariant fresh(p) && p.Valid() && p.Now() == Play(START, events[..k])
    {
      assert events[..k + 1][..k] == events[..k];
      match events[k] {
        case EnqueueJob(job) => var _ := p.Enqueue(job);
        case PreparedWith(result) => if p.sender.Preparing? { p.Prepared(result); }
        case Resumed => if p.sender.AwaitingRoom? && p.sender.woken { p.Resume(); }
        case Reply(i) => if i < |p.inFlight| { p.Settle(i); }
        case AskIdle(waiter) => var _ := p.Idle(waiter);
      }
    }
    assert events[..|events|] == events;
  }

  /** The jobs offered while fewer than 100 were queued. */
  function Taken(events: seq<Event>): seq<Job> {
    if events == [] then [] else
      var front, e := events[..|events| - 1], events[|events| - 1];
      if e.EnqueueJob? && Queued(Play(START, front)) < MAX_QUEUED then Taken(front) + [e.job] else Taken(front)
  }

  /** What the preparations that were under way turned out to be. */
  function Outcomes(events: seq<Event>): seq<seq<Packet>> {
    if events == [] then [] else
      var front, e := events[..|events| - 1], events[|events| - 1];
      if e.PreparedWith? && Play(START, front).sender.Preparing? then Outcomes(front) + [PacketsOf(e.result)]
      else Outcomes(front)
  }

  function Concat(lists: seq<seq<Packet>>): seq<Packet> {
    if lists == [] then [] else Concat(lists[..|lists| - 1]) + lists[|lists| - 1]
  }

  /** The packets of every job were prepared from that job, in the order accepted. */
  predicate Matches(prepared: seq<(Job, seq<Packet>)>, outcomes: seq<seq<Packet>>) {
    |prepared| == |outcomes| && forall k :: 0 <= k < |prepared| ==> prepared[k].1 == outcomes[k]
  }

  lemma {:induction false} RunOfEvents(events: seq<Event>)
    ensures Play(START, events).accepted == Taken(events)
    ensures Matches(Play(START, events).prepared, Outcomes(events))
  {
    if events != [] {
      RunOfEvents(events[..|events| - 1]);
    }
  }

  lemma {:induction false} FlattenIsConcat(prepared: seq<(Job, seq<Packet>)>, outcomes: seq<seq<Packet>>)
    requires Matches(prepared, outcomes)
    ensures Flatten(prepared) == Concat(outcomes)
  {
    if prepared != [] {
      FlattenIsConcat(prepared[..|prepared| - 1], outcomes[..|outcomes| - 1]);
    }
  }

  /** For any events: what was sent is a prefix of the packets prepared, in the order in
      which the jobs were taken, and both windows hold; when nothing is queued, it is all
      of them, for all jobs. */
  lemma SentInOrder(events: seq<Event>)
    ensures var s := Play(START, events);
      && s.sent <= Concat(Outcomes(events))
      && |Outcomes(events)| <= |Taken(events)|
      && Jobs(s.prepared) == Taken(events)[..|Outcomes(events)|]
      && Window(s.inFlight) && Queued(s) <= MAX_QUEUED
      && (Queued(s) == 0 ==> |Outcomes(events)| == |Taken(events)| && s.sent == Concat(Outcomes(events)))
      && (s.idleWaiters != [] ==> Busy(s))
  {
    PlayKeepsInv(START, events);
    RunOfEvents(events);
    FlattenIsConcat(Play(START, events).prepared, Outcomes(events));
  }

  /** In every run at most 100 jobs are queued, at most 64 packets are in flight, and of two
      or more at most two mebibytes. */
  lemma {:induction false} WithinBounds(events: seq<Event>)
    ensures var s := Play(START, events);
      && Queued(s) <= 100 && |s.inFlight| <= 64
      && (|s.inFlight| > 1 ==> TotalBytes(s.inFlight) <= 2_097_152)
  {
    PlayKeepsInv(START, events);
  }

  /** The sender sleeps only while its next packet would go over one of the bounds: 64 packets
      are in flight, or some are and the packet does not fit beside them. */
  lemma {:induction false} SleepsOnlyWithoutRoom(events: seq<Event>)
    requires var s := Play(START, events); s.sender.AwaitingRoom? && !s.sender.woken
    ensures var s := Play(START, events);
      && s.sender.rest != []
      && (|s.inFlight| >= 64 || (s.inFlight != [] && TotalBytes(s.inFlight) + Bytes(s.sender.rest[0]) > 2_097_152))
  {
    PlayKeepsInv(START, events);
  }

  /** The idle promises asked for while something was queued or in flight. */
  function Asked(events: seq<Event>): seq<nat> {
    if events == [] then [] else
      var front, e := events[..|events| - 1], events[|events| - 1];
      if e.AskIdle? && Busy(Play(START, front)) then Asked(front) + [e.waiter] else Asked(front)
  }

  /** Each of them is waiting or was resolved, once, in the order asked, and none is waiting
      when nothing is queued or in flight. */
  lemma {:induction false} IdlePromisesAreKept(events: seq<Event>)
    ensures var s := Play(START, events);
      && s.resolved + s.idleWaiters == Asked(events)
      && (!Busy(s) ==> s.resolved == Asked(events))
      && (s.jobs == [] && s.sender.Stopped? && s.inFlight == [] ==> !Busy(s))
  {
    PlayKeepsInv(START, events);
    var s := Play(START, events);
    if events == [] {
    } else {
      var front, e := events[..|events| - 1], events[|events| - 1];
      IdlePromisesAreKept(front);
      StepKeepsPromises(Play(START, front), e);
    }
    if !Busy(s) { assert s.resolved + [] == s.resolved; }
  }

  lemma {:induction false} StepKeepsPromises(s: State, e: Event)
    ensures var t := Step(s, e);
      t.resolved + t.idleWaiters == s.resolved + s.idleWaiters + (if e.AskIdle? && Busy(s) then [e.waiter] else [])
  {
    assert s.resolved + s.idleWaiters + [] == s.resolved + s.idleWaiters;
    if e.AskIdle? { assert s.resolved + (s.idleWaiters + [e.waiter]) == s.resolved + s.idleWaiters + [e.waiter]; }
  }

  // ---------- nothing gets stuck ----------

  lemma PlayLast(s: State, events: seq<Event>, last: Event)
    ensures Play(s, events + [last]) == Step(Play(s, events), last)
  {
    assert (events + [last])[..|events|] == events;
  }

  lemma {:induction false} PlayOn(s: State, first: Event, events: seq<Event>)
    ensures Play(s, [first] + events) == Play(Step(s, first), events)
  {
    if events == [] {
      PlayLast(s, [], first);
      assert [first] + events == [] + [first];
    } else {
      var front, last := events[..|events| - 1], events[|events| - 1];
      assert events == front + [last];
      PlayOn(s, first, front);
      PlayLast(s, [first] + front, last);
      PlayLast(Step(s, first), front, last);
      assert [first] + events == [first] + front + [last];
    }
  }

  /** What the outside does next: the current preparation settles, the woken sender runs
      on, or a reply arrives. */
  function Pending(s: State, outcome: Job -> Preparation): Event {
    if s.sender.Preparing? then PreparedWith(outcome(s.sender.job))
    else if s.sender.AwaitingRoom? && s.sender.woken then Resumed
    else Reply(0)
  }

  function Preparations(s: State): nat {
    if s.sender.Preparing? then 1 else 0
  }

  function Awake(s: State): nat {
    if s.sender.AwaitingRoom? && s.sender.woken then 1 else 0
  }

  predicate Closer(s: State, t: State) {
    if Queued(t) != Queued(s) then Queued(t) < Queued(s)
    else if Preparations(t) != Preparations(s) then Preparations(t) < Preparations(s)
    else if |Rest(t)| != |Rest(s)| then |Rest(t)| < |Rest(s)|
    else if |t.inFlight| != |s.inFlight| then |t.inFlight| < |s.inFlight|
    else Awake(t) < Awake(s)
  }

  lemma PendingIsCloser(s: State, outcome: Job -> Preparation)
    requires Inv(s) && Busy(s)
    ensures Closer(s, Step(s, Pending(s, outcome)))
  {
    if s.sender.AwaitingRoom? && s.sender.woken && !Room(s.inFlight, s.sender.rest[0]) {
      NothingFits(s);
    }
  }

  lemma PendingKeeps(s: State, outcome: Job -> Preparation)
    requires Inv(s) && Busy(s)
    ensures Step(s, Pending(s, outcome)).accepted == s.accepted
    ensures var t := Step(s, Pending(s, outcome)); t.resolved + t.idleWaiters == s.resolved + s.idleWaiters
  {
    assert s.resolved + s.idleWaiters + [] == s.resolved + s.idleWaiters;
  }

  /** Everything accepted is prepared, every packet sent and settled, every idle promise
      of `s` resolved. */
  predicate DrainedFrom(s: State, t: State) {
    && !Busy(t)
    && Jobs(t.prepared) == t.accepted == s.accepted
    && t.sent == Flatten(t.prepared)
    && t.idleWaiters == [] && t.resolved == s.resolved + s.idleWaiters
  }

  /** From every state a run can reach, whatever the preparations turn out to be, settled
      preparations and replies alone bring the pipeline to rest. */
  lemma {:induction false} Drains(s: State, outcome: Job -> Preparation) returns (events: seq<Event>)
    requires Inv(s)
    ensures forall e :: e in events ==> e.PreparedWith? || e.Resumed? || e.Reply?
    ensures DrainedFrom(s, Play(s, events))
    decreases Queued(s), Preparations(s), |Rest(s)|, |s.inFlight|, Awake(s)
  {
    if !Busy(s) {
      events := [];
      assert Jobs(s.prepared) + [] + [] == Jobs(s.prepared);
      assert s.resolved + [] == s.resolved && s.sent + [] == s.sent;
    } else {
      var e := Pending(s, outcome);
      PendingIsCloser(s, outcome);
      PendingKeeps(s, outcome);
      StepKeepsInv(s, e);
      var more := Drains(Step(s, e), outcome);
      events := [e] + more;
      PlayOn(s, e, more);
    }
  }
}

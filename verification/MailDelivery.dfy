/** Delivery of one session's mail, and the claims of a wake. */
module MailDelivery {
  import opened Results

  // The selection lock, the long poll that waits, and the Codex wake that claims one message
  // while it hands it over. A step is what runs between two awaits; the selection lock and the
  // wake lock are AsyncLock locks.

  type Id = nat
  type WaiterId = nat

  /** What runs under the selection lock. */
  datatype Job =
    | ReadJob(wait: bool)       // a drain or the start of a long poll
    | NotifyJob(waiter: WaiterId)
    | TimerJob(waiter: WaiterId)
    | ClaimJob
    | MarkJob
    | ReleaseJob

  datatype Stage =
    | Entered                   // awaiting the list of undelivered mail
    | Listed(pending: seq<Id>)  // what is available, claimed mail left out
    | Marking(ids: seq<Id>)     // awaiting markDelivered

  datatype Selection = Free | Busy(job: Job, stage: Stage)

  /** The one wakeCodex call the wake lock lets through. */
  datatype Wake =
    | NoWake
    | Starting
    | Claimed(id: Id)
    | Waking(id: Id)            // awaiting the native wake
    | Accepted(id: Id)          // the agent took the message
    | Releasing(id: Id)         // the finally block, or the early exit

  /** One delivery, with the claim and the wake as they were when it was made; `late` if it
      was made for a poll that had been answered or abandoned before. */
  datatype Delivery = Delivery(id: Id, job: Job, claim: Option<Id>, wake: Wake, late: bool)

  datatype State = State(
    nextId: Id,
    undelivered: seq<Id>,
    deliveries: seq<Delivery>,
    selection: Selection,
    claim: Option<Id>,          // codexClaims
    wake: Wake,
    current: bool,              // the running wake's `current()` and its signal
    waiter: Option<WaiterId>,   // mailWaiters
    nextWaiter: WaiterId,
    answers: map<WaiterId, seq<Id>>, // polls that were resolved, with what they got
    abandoned: set<WaiterId>)

  datatype Event =
    | Append
    | Enter(job: Job)
    | ListArrives
    | Decide
    | MarkArrives
    | Throws                    // the awaited list or mark rejected
    | WakeStarts
    | WakeProceeds              // between the claim and the native wake
    | NativeResult(accepted: bool)
    | Invalidate                // stop, or another store or runner
    | Abandon                   // the polling client went away
    | StopPolls

  function Without(ids: seq<Id>, gone: seq<Id>): seq<Id> {
    if ids == [] then []
    else Without(ids[..|ids| - 1], gone) + (if ids[|ids| - 1] in gone then [] else [ids[|ids| - 1]])
  }

  function Both(ids: seq<Id>, wanted: seq<Id>): seq<Id> {
    if ids == [] then []
    else Both(ids[..|ids| - 1], wanted) + (if ids[|ids| - 1] in wanted then [ids[|ids| - 1]] else [])
  }

  /** Mail that is not claimed. */
  function Available(s: State): seq<Id> {
    if s.claim.Some? then Without(s.undelivered, [s.claim.value]) else s.undelivered
  }

  predicate MayEnter(s: State, job: Job) {
    s.selection == Free &&
    match job
    case ReadJob(_) => true
    case NotifyJob(w) => s.waiter == Some(w)
    case TimerJob(w) => s.waiter == Some(w)
    case ClaimJob => s.wake == Starting
    case MarkJob => s.wake.Accepted?
    case ReleaseJob => s.wake.Releasing?
  }

  /** Resolve a poll; only the first time counts. */
  function Answer(s: State, w: WaiterId, ids: seq<Id>): State {
    if w in s.answers || w in s.abandoned then s
    else s.(answers := s.answers[w := ids], waiter := if s.waiter == Some(w) then None else s.waiter)
  }

  function Leave(s: State): State {
    s.(selection := Free)
  }

  /** Jobs that ask for the undelivered mail first. */
  predicate Lists(job: Job) {
    job != MarkJob && job != ReleaseJob
  }

  /** The code after the list arrived. */
  function Decided(s: State, job: Job, pending: seq<Id>): State {
    match job
    case ReadJob(wait) =>
      if pending != [] || !wait || s.claim.Some? then s.(selection := Busy(job, Marking(pending)))
      else
        var t := if s.waiter.Some? then Answer(s, s.waiter.value, []) else s;
        Leave(t.(waiter := Some(t.nextWaiter), nextWaiter := t.nextWaiter + 1))
    case NotifyJob(w) =>
      if s.waiter == Some(w) && pending != [] then s.(selection := Busy(job, Marking(pending))) else Leave(s)
    case TimerJob(w) =>
      if s.waiter == Some(w) && pending != [] then s.(selection := Busy(job, Marking(pending))) else Leave(Answer(s, w, []))
    case ClaimJob =>
      if !s.current || pending == [] then Leave(s.(wake := NoWake))
      else Leave(s.(claim := Some(pending[0]), wake := Claimed(pending[0])))
    case MarkJob =>
      if s.wake.Accepted? && s.current && s.claim == Some(s.wake.id) then s.(selection := Busy(job, Marking([s.wake.id])))
      else Leave(s.(wake := if s.wake.Accepted? then Releasing(s.wake.id) else s.wake))
    case ReleaseJob =>
      var id := if s.wake.Releasing? then Some(s.wake.id) else None;
      Leave(s.(claim := if s.claim == id then None else s.claim, wake := NoWake))
  }

  /** Is the poll a job works for over? */
  predicate Late(s: State, job: Job) {
    match job
    case NotifyJob(w) => w in s.answers || w in s.abandoned
    case TimerJob(w) => w in s.answers || w in s.abandoned
    case _ => false
  }

  /** The store marks what is still undelivered and returns it. */
  function Marked(s: State, job: Job, ids: seq<Id>): State {
    var marked := Both(s.undelivered, ids);
    var t := s.(
      undelivered := Without(s.undelivered, ids),
      deliveries := s.deliveries + Records(s, job, marked),
      wake := if job == MarkJob && s.wake.Accepted? then Releasing(s.wake.id) else s.wake);
    match job
    case NotifyJob(w) => Leave(Answer(t, w, marked))
    case TimerJob(w) => Leave(Answer(t, w, marked))
    case _ => Leave(t)
  }

  function Thrown(s: State, job: Job): State {
    match job
    case ClaimJob => Leave(s.(wake := NoWake))
    case MarkJob => Leave(s.(wake := if s.wake.Accepted? then Releasing(s.wake.id) else s.wake))
    case TimerJob(w) => Leave(Answer(s, w, []))
    case _ => Leave(s)
  }

  function Step(s: State, e: Event): State {
    match e
    case Append => s.(undelivered := s.undelivered + [s.nextId], nextId := s.nextId + 1)
    case Enter(job) => if MayEnter(s, job) then s.(selection := Busy(job, Entered)) else s
    case ListArrives =>
      if s.selection.Busy? && s.selection.stage == Entered && Lists(s.selection.job) then
        s.(selection := Busy(s.selection.job, Listed(Available(s))))
      else s
    case Decide =>
      if !s.selection.Busy? then s
      else if s.selection.stage.Listed? then Decided(s, s.selection.job, s.selection.stage.pending)
      else if s.selection.stage == Entered && !Lists(s.selection.job) then Decided(s, s.selection.job, [])
      else s
    case MarkArrives =>
      if s.selection.Busy? && s.selection.stage.Marking? then Marked(s, s.selection.job, s.selection.stage.ids) else s
    case Throws =>
      if s.selection.Busy? && (s.selection.stage.Marking? || (s.selection.stage == Entered && Lists(s.selection.job))) then Thrown(s, s.selection.job) else s
    case WakeStarts => if s.wake == NoWake then s.(wake := Starting, current := true) else s
    case WakeProceeds =>
      if s.wake.Claimed? then s.(wake := if s.current then Waking(s.wake.id) else Releasing(s.wake.id)) else s
    case NativeResult(accepted) =>
      if s.wake.Waking? then s.(wake := if accepted && s.current then Accepted(s.wake.id) else Releasing(s.wake.id)) else s
    case Invalidate => s.(current := false)
    case Abandon =>
      if s.waiter.Some? then s.(waiter := None, abandoned := s.abandoned + {s.waiter.value}) else s
    case StopPolls => if s.waiter.Some? then Answer(s, s.waiter.value, []) else s
  }

  function Run(s: State, events: seq<Event>): State {
    if events == [] then s else Step(Run(s, events[..|events| - 1]), events[|events| - 1])
  }

  const INITIAL := State(0, [], [], Free, None, NoWake, false, None, 0, map[], {})

  // ---------- the invariant ----------

  /** The claim is the running wake's, from the step that takes it to the step that
      releases it; there is no other. */
  predicate ClaimFits(s: State) {
    match s.wake
    case NoWake => s.claim.None?
    case Starting => s.claim.None?
    case Claimed(id) => s.claim == Some(id)
    case Waking(id) => s.claim == Some(id)
    case Accepted(id) => s.claim == Some(id)
    case Releasing(id) => s.claim == Some(id)
  }

  predicate SelectionFits(s: State) {
    s.selection.Busy? ==>
      && (s.selection.job == ClaimJob ==> s.wake == Starting)
      && (s.selection.job == MarkJob ==> s.wake.Accepted?)
      && (s.selection.job == ReleaseJob ==> s.wake.Releasing?)
      && (s.selection.stage.Listed? ==> Lists(s.selection.job) && NotClaimed(s, s.selection.stage.pending))
      && (s.selection.stage.Marking? ==> s.selection.job != ClaimJob && s.selection.job != ReleaseJob)
      && (s.selection.stage.Marking? && s.selection.job != MarkJob ==> NotClaimed(s, s.selection.stage.ids))
      && (s.selection.stage.Marking? && s.selection.job == MarkJob ==> s.wake.Accepted? && s.selection.stage.ids == [s.wake.id])
      && (s.selection.stage.Listed? && s.selection.job == ClaimJob ==> forall id <- s.selection.stage.pending :: id in s.undelivered)
  }

  predicate NotClaimed(s: State, ids: seq<Id>) {
    s.claim.Some? ==> s.claim.value !in ids
  }

  predicate Proper(d: Delivery) {
    if d.job == MarkJob then d.claim == Some(d.id) && d.wake == Accepted(d.id)
    else d.claim != Some(d.id)
  }

  function ToSet(ids: seq<Id>): set<Id> {
    set x | x in ids
  }

  function DeliveredIds(deliveries: seq<Delivery>): set<Id> {
    set d | d in deliveries :: d.id
  }

  predicate Distinct(ids: seq<Id>) {
    forall j, k :: 0 <= j < k < |ids| ==> ids[j] != ids[k]
  }

  /** Nothing is delivered twice, and each delivery respects the claim. */
  ghost predicate HistoryFits(deliveries: seq<Delivery>) {
    && (forall d <- deliveries :: Proper(d))
    && (forall j, k :: 0 <= j < k < |deliveries| ==> deliveries[j].id != deliveries[k].id)
  }

  ghost predicate MailFits(s: State) {
    && Distinct(s.undelivered)
    && (forall id <- s.undelivered :: id < s.nextId && id !in DeliveredIds(s.deliveries))
    && (forall id <- DeliveredIds(s.deliveries) :: id < s.nextId)
    && HistoryFits(s.deliveries)
    && (s.wake.Claimed? || s.wake.Waking? || s.wake.Accepted? ==> s.wake.id in s.undelivered)
  }

  ghost predicate Inv(s: State) {
    ClaimFits(s) && SelectionFits(s) && MailFits(s)
  }

  lemma {:induction false} WithoutMembers(ids: seq<Id>, gone: seq<Id>)
    ensures forall x :: x in Without(ids, gone) <==> x in ids && x !in gone
    ensures Distinct(ids) ==> Distinct(Without(ids, gone))
  {
    if ids != [] {
      var front, last := ids[..|ids| - 1], ids[|ids| - 1];
      assert ids == front + [last];
      WithoutMembers(front, gone);
      var w := Without(front, gone);
      if Distinct(ids) {
        forall j | 0 <= j < |w| ensures w[j] != last {
          assert w[j] in front;
        }
      }
    }
  }

  lemma {:induction false} BothMembers(ids: seq<Id>, wanted: seq<Id>)
    ensures forall x :: x in Both(ids, wanted) <==> x in ids && x in wanted
    ensures Distinct(ids) ==> Distinct(Both(ids, wanted))
  {
    if ids != [] {
      var front, last := ids[..|ids| - 1], ids[|ids| - 1];
      assert ids == front + [last];
      BothMembers(front, wanted);
      var w := Both(front, wanted);
      if Distinct(ids) {
        forall j | 0 <= j < |w| ensures w[j] != last {
          assert w[j] in front;
        }
      }
    }
  }

  lemma HistoryGrows(deliveries: seq<Delivery>, more: seq<Delivery>)
    requires HistoryFits(deliveries)
    requires forall d <- more :: Proper(d) && d.id !in DeliveredIds(deliveries)
    requires forall j, k :: 0 <= j < k < |more| ==> more[j].id != more[k].id
    ensures HistoryFits(deliveries + more)
    ensures DeliveredIds(deliveries + more) == DeliveredIds(deliveries) + DeliveredIds(more)
  {
    var all := deliveries + more;
    var n := |deliveries|;
    forall j, k | 0 <= j < k < |all| ensures all[j].id != all[k].id {
      if j < n <= k {
        assert more[k - n] in more && deliveries[j] in deliveries;
      }
    }
    assert forall d :: d in all <==> d in deliveries || d in more;
  }

  function Records(s: State, job: Job, ids: seq<Id>): seq<Delivery> {
    seq(|ids|, i requires 0 <= i < |ids| => Delivery(ids[i], job, s.claim, s.wake, Late(s, job)))
  }

  lemma RecordsFit(s: State, job: Job, ids: seq<Id>)
    requires Inv(s) && s.selection == Busy(job, Marking(ids))
    ensures var marked := Both(s.undelivered, ids);
      HistoryFits(s.deliveries + Records(s, job, marked))
      && DeliveredIds(s.deliveries + Records(s, job, marked)) == DeliveredIds(s.deliveries) + ToSet(marked)
  {
    var marked := Both(s.undelivered, ids);
    var more := Records(s, job, marked);
    BothMembers(s.undelivered, ids);
    forall d <- more ensures Proper(d) && d.id in marked {
      var k :| 0 <= k < |more| && more[k] == d;
      assert marked[k] in marked;
    }
    HistoryGrows(s.deliveries, more);
    forall x <- marked ensures x in DeliveredIds(more) {
      var k :| 0 <= k < |marked| && marked[k] == x;
      assert more[k] in more;
    }
  }

  /** Marking: what leaves the undelivered mail is delivered, once. */
  lemma MarkedKeepsInv(s: State, job: Job, ids: seq<Id>)
    requires Inv(s) && s.selection == Busy(job, Marking(ids))
    ensures Inv(Marked(s, job, ids))
  {
    RecordsFit(s, job, ids);
    RemainingFit(s, ids);
    var t := Marked(s, job, ids);
    assert t.undelivered == Without(s.undelivered, ids) && t.nextId == s.nextId && t.claim == s.claim;
    assert t.deliveries == s.deliveries + Records(s, job, Both(s.undelivered, ids));
    assert t.selection == Free;
    assert t.wake == if job == MarkJob then Releasing(s.wake.id) else s.wake;
    if job != MarkJob && s.claim.Some? { assert s.claim.value !in ids; }
  }

  lemma RemainingFit(s: State, ids: seq<Id>)
    requires MailFits(s)
    ensures var rest, marked := Without(s.undelivered, ids), Both(s.undelivered, ids);
      && Distinct(rest)
      && (forall id <- rest :: id < s.nextId && id !in DeliveredIds(s.deliveries) + ToSet(marked))
      && (forall id <- DeliveredIds(s.deliveries) + ToSet(marked) :: id < s.nextId)
      && (forall id <- s.undelivered :: id !in ids ==> id in rest)
  {
    WithoutMembers(s.undelivered, ids);
    BothMembers(s.undelivered, ids);
  }

  lemma DecidedKeepsInv(s: State, job: Job, pending: seq<Id>)
    requires Inv(s) && s.selection.Busy? && s.selection.job == job
    requires s.selection.stage == Listed(pending) || (s.selection.stage == Entered && !Lists(job) && pending == [])
    ensures Inv(Decided(s, job, pending))
  {
    if pending != [] { assert pending[0] in pending; }
  }

  lemma ListKeepsInv(s: State)
    requires Inv(s)
    ensures Inv(Step(s, ListArrives))
  {
    if s.claim.Some? { WithoutMembers(s.undelivered, [s.claim.value]); }
  }

  /** Who waits, and what polls were answered, is no part of the invariant. */
  lemma PollsDoNotMatter(s: State, t: State)
    requires Inv(s)
    requires t == s.(waiter := t.waiter, answers := t.answers, abandoned := t.abandoned, nextWaiter := t.nextWaiter)
    ensures Inv(t)
  {
  }

  lemma LeaveKeepsInv(s: State)
    requires Inv(s)
    ensures Inv(Leave(s))
  {
  }

  lemma ThrowKeepsInv(s: State)
    requires Inv(s)
    ensures Inv(Step(s, Throws))
  {
    if s.selection.Busy? {
      match s.selection.job
      case TimerJob(w) =>
        PollsDoNotMatter(s, Answer(s, w, []));
        LeaveKeepsInv(Answer(s, w, []));
      case ReadJob(_) => LeaveKeepsInv(s);
      case NotifyJob(_) => LeaveKeepsInv(s);
      case _ =>
    }
  }

  lemma OutsideKeepsInv(s: State, e: Event)
    requires Inv(s)
    requires !e.MarkArrives? && !e.Decide? && !e.ListArrives? && !e.Throws?
    ensures Inv(Step(s, e))
  {
    if e == Append {
      assert forall j :: 0 <= j < |s.undelivered| ==> s.undelivered[j] in s.undelivered;
    }
  }

  lemma StepKeepsInv(s: State, e: Event)
    requires Inv(s)
    ensures Inv(Step(s, e))
  {
    match e
    case MarkArrives =>
      if s.selection.Busy? && s.selection.stage.Marking? { MarkedKeepsInv(s, s.selection.job, s.selection.stage.ids); }
    case Decide =>
      if s.selection.Busy? && s.selection.stage.Listed? { DecidedKeepsInv(s, s.selection.job, s.selection.stage.pending); }
      else if s.selection.Busy? && s.selection.stage == Entered && !Lists(s.selection.job) { DecidedKeepsInv(s, s.selection.job, []); }
    case ListArrives => ListKeepsInv(s);
    case Throws => ThrowKeepsInv(s);
    case _ => OutsideKeepsInv(s, e);
  }

  lemma {:induction false} RunKeepsInv(events: seq<Event>)
    ensures Inv(Run(INITIAL, events))
  {
    if events != [] {
      RunKeepsInv(events[..|events| - 1]);
      StepKeepsInv(Run(INITIAL, events[..|events| - 1]), events[|events| - 1]);
    }
  }

  // ---------- the promises ----------

  /** Every delivery of every run: made by the wake, it is the wake's own claimed message
      after the agent accepted it; made by a drain, a poll, a timer or a notify, it is
      not the message claimed at that moment. And no message is delivered twice. */
  lemma ClaimIsRespected(events: seq<Event>, k: nat)
    requires k < |Run(INITIAL, events).deliveries|
    ensures var d := Run(INITIAL, events).deliveries[k];
      && (d.job == MarkJob ==> d.claim == Some(d.id) && d.wake == Accepted(d.id))
      && (d.job != MarkJob ==> d.claim != Some(d.id))
      && d.id !in Run(INITIAL, events).undelivered
      && forall j :: 0 <= j < k ==> Run(INITIAL, events).deliveries[j].id != d.id
  {
    RunKeepsInv(events);
    var s := Run(INITIAL, events);
    assert s.deliveries[k] in s.deliveries && Proper(s.deliveries[k]);
    assert s.deliveries[k].id in DeliveredIds(s.deliveries);
  }

  /** A claimed message stays undelivered until the agent accepted it. */
  lemma ClaimedStaysUndelivered(events: seq<Event>)
    requires var w := Run(INITIAL, events).wake; w.Claimed? || w.Waking? || w.Accepted?
    ensures Run(INITIAL, events).wake.id in Run(INITIAL, events).undelivered
    ensures Run(INITIAL, events).claim == Some(Run(INITIAL, events).wake.id)
  {
    RunKeepsInv(events);
  }

  lemma ClaimStep(s: State, e: Event)
    requires Inv(s)
    ensures s.claim.Some? && Step(s, e).claim.Some? ==> s.claim == Step(s, e).claim
    ensures s.claim.None? && Step(s, e).claim.Some? ==> s.selection.Busy? && s.selection.job == ClaimJob
  {
  }

  /** One claim at a time: none is taken over another, and when no wake runs there is none. */
  lemma OneClaimAtATime(events: seq<Event>, e: Event)
    ensures var s := Run(INITIAL, events); var t := Run(INITIAL, events + [e]);
      && (s.claim.Some? && t.claim.Some? ==> s.claim == t.claim)
      && (s.claim.None? && t.claim.Some? ==> s.selection.Busy? && s.selection.job == ClaimJob)
      && (t.wake == NoWake ==> t.claim.None?)
  {
    RunKeepsInv(events);
    RunKeepsInv(events + [e]);
    assert (events + [e])[..|events|] == events;
    ClaimStep(Run(INITIAL, events), e);
  }

  /** Whatever went wrong, once the wake is in its finally block and the lock is free,
      entering it releases the claim. */
  lemma ReleaseReleases(events: seq<Event>)
    requires Run(INITIAL, events).wake.Releasing? && Run(INITIAL, events).selection == Free
    ensures var t := Run(INITIAL, events + [Enter(ReleaseJob), Decide]);
      t.claim.None? && t.wake == NoWake && t.selection == Free
  {
    RunKeepsInv(events);
    var a := events + [Enter(ReleaseJob)];
    var b := a + [Decide];
    assert b == events + [Enter(ReleaseJob), Decide] && a[..|events|] == events && b[..|a|] == a;
    var s := Run(INITIAL, a);
    assert s.selection == Busy(ReleaseJob, Entered);
  }

  lemma OnlyReleaseEndsClaim(s: State, e: Event)
    requires Inv(s) && s.claim.Some? && Step(s, e).claim.None?
    ensures s.wake.Releasing? && e == Decide && Step(s, e).wake == NoWake
  {
  }

  /** Every step of a wake that holds the claim keeps it or leads to the finally block. */
  lemma ClaimEndsInRelease(events: seq<Event>, e: Event)
    requires Run(INITIAL, events).claim.Some? && Run(INITIAL, events + [e]).claim.None?
    ensures Run(INITIAL, events).wake.Releasing? && e == Decide && Run(INITIAL, events + [e]).wake == NoWake
  {
    RunKeepsInv(events);
    assert (events + [e])[..|events|] == events;
    OnlyReleaseEndsClaim(Run(INITIAL, events), e);
  }

  // ---------- what the polls get ----------

  /** Made for this poll, in time. */
  predicate For(d: Delivery, w: WaiterId) {
    (d.job == NotifyJob(w) || d.job == TimerJob(w)) && !d.late
  }

  /** What was delivered for a poll in time, in order. */
  function Got(deliveries: seq<Delivery>, w: WaiterId): seq<Id> {
    if deliveries == [] then []
    else
      var last := deliveries[|deliveries| - 1];
      Got(deliveries[..|deliveries| - 1], w) + (if For(last, w) then [last.id] else [])
  }

  /** What a poll was answered with, or nothing. */
  function AnswerOf(s: State, w: WaiterId): seq<Id> {
    if w in s.answers then s.answers[w] else []
  }

  predicate AnswerFits(s: State, w: WaiterId) {
    Got(s.deliveries, w) == AnswerOf(s, w)
  }

  /** A poll is in one of three places. */
  predicate Accounted(s: State, w: WaiterId) {
    if w < s.nextWaiter then
      if s.waiter == Some(w) then w !in s.answers && w !in s.abandoned
      else w in s.answers <==> w !in s.abandoned
    else s.waiter != Some(w) && w !in s.answers && w !in s.abandoned
  }

  /** A job works for a poll that was there when the job was entered. */
  predicate JobFits(s: State) {
    s.selection.Busy? ==>
      match s.selection.job
      case NotifyJob(w) => w < s.nextWaiter
      case TimerJob(w) => w < s.nextWaiter
      case _ => true
  }

  ghost predicate PollsFit(s: State) {
    && JobFits(s)
    && (forall w: WaiterId :: AnswerFits(s, w))
    && (forall w: WaiterId :: Accounted(s, w))
  }

  lemma {:induction false} GotNothing(deliveries: seq<Delivery>, more: seq<Delivery>, w: WaiterId)
    requires forall d <- more :: !For(d, w)
    ensures Got(deliveries + more, w) == Got(deliveries, w)
  {
    if more == [] {
      assert deliveries + more == deliveries;
    } else {
      var front := more[..|more| - 1];
      GotNothing(deliveries, front, w);
      assert (deliveries + more)[..|deliveries + more| - 1] == deliveries + front;
      assert more[|more| - 1] in more;
      assert Got(deliveries, w) + [] == Got(deliveries, w);
    }
  }

  lemma {:induction false} GotAll(deliveries: seq<Delivery>, s: State, job: Job, ids: seq<Id>, w: WaiterId)
    requires (job == NotifyJob(w) || job == TimerJob(w)) && !Late(s, job)
    ensures Got(deliveries + Records(s, job, ids), w) == Got(deliveries, w) + ids
  {
    var more := Records(s, job, ids);
    if ids == [] {
      assert deliveries + more == deliveries && Got(deliveries, w) + ids == Got(deliveries, w);
    } else {
      var front := ids[..|ids| - 1];
      GotAll(deliveries, s, job, front, w);
      assert (deliveries + more)[..|deliveries + more| - 1] == deliveries + Records(s, job, front);
      assert Got(deliveries, w) + front + [ids[|ids| - 1]] == Got(deliveries, w) + ids;
    }
  }

  /** The polls of two states are alike. */
  predicate SamePolls(s: State, t: State) {
    s.waiter == t.waiter && s.nextWaiter == t.nextWaiter && s.answers == t.answers && s.abandoned == t.abandoned
  }

  lemma {:induction false} AnswerKeepsAccounted(s: State, v: WaiterId, ids: seq<Id>, w: WaiterId)
    requires Accounted(s, v) && Accounted(s, w) && v < s.nextWaiter
    ensures Accounted(Answer(s, v, ids), w)
  {
  }

  lemma {:induction false} NewPollKeepsAccounted(s: State, w: WaiterId)
    requires s.waiter.None? && Accounted(s, w)
    ensures Accounted(s.(waiter := Some(s.nextWaiter), nextWaiter := s.nextWaiter + 1), w)
  {
  }

  lemma {:induction false} DecidedKeepsAccounted(s: State, job: Job, pending: seq<Id>, w: WaiterId)
    requires s.selection.Busy? && s.selection.job == job && JobFits(s) && Accounted(s, w)
    requires forall v: WaiterId :: Accounted(s, v)
    ensures Accounted(Decided(s, job, pending), w)
  {
    match job
    case ReadJob(wait) =>
      if s.waiter.Some? {
        AnswerKeepsAccounted(s, s.waiter.value, [], w);
        NewPollKeepsAccounted(Answer(s, s.waiter.value, []), w);
      } else {
        NewPollKeepsAccounted(s, w);
      }
    case TimerJob(v) => AnswerKeepsAccounted(s, v, [], w);
    case _ =>
      assert SamePolls(s, Decided(s, job, pending));
  }

  lemma {:induction false} ThrownKeepsAccounted(s: State, job: Job, w: WaiterId)
    requires s.selection.Busy? && s.selection.job == job && JobFits(s) && Accounted(s, w)
    requires forall v: WaiterId :: Accounted(s, v)
    ensures Accounted(Thrown(s, job), w)
  {
    match job
    case TimerJob(v) => AnswerKeepsAccounted(s, v, [], w);
    case _ =>
      assert SamePolls(s, Thrown(s, job));
  }

  lemma {:induction false} MarkedKeepsAccounted(s: State, job: Job, ids: seq<Id>, w: WaiterId)
    requires s.selection.Busy? && s.selection.job == job && JobFits(s) && Accounted(s, w)
    requires forall v: WaiterId :: Accounted(s, v)
    ensures Accounted(Marked(s, job, ids), w)
  {
    var marked := Both(s.undelivered, ids);
    match job
    case NotifyJob(v) => AnswerKeepsAccounted(s, v, marked, w);
    case TimerJob(v) => AnswerKeepsAccounted(s, v, marked, w);
    case _ =>
      assert SamePolls(s, Marked(s, job, ids));
  }

  lemma {:induction false} StepKeepsAccounted(s: State, e: Event, w: WaiterId)
    requires JobFits(s) && forall v: WaiterId :: Accounted(s, v)
    ensures Accounted(Step(s, e), w)
  {
    assert Accounted(s, w);
    if Step(s, e) != s {
      match e
      case Decide =>
        DecidedKeepsAccounted(s, s.selection.job, if s.selection.stage.Listed? then s.selection.stage.pending else [], w);
      case MarkArrives => MarkedKeepsAccounted(s, s.selection.job, s.selection.stage.ids, w);
      case Throws => ThrownKeepsAccounted(s, s.selection.job, w);
      case StopPolls => AnswerKeepsAccounted(s, s.waiter.value, [], w);
      case Abandon =>
      case _ =>
        assert SamePolls(s, Step(s, e));
    }
  }

  lemma {:induction false} StepKeepsJob(s: State, e: Event)
    requires JobFits(s) && forall v: WaiterId :: Accounted(s, v)
    ensures JobFits(Step(s, e))
  {
    if e.Enter? && s.waiter.Some? { assert Accounted(s, s.waiter.value); }
  }

  lemma {:induction false} AnswerIs(s: State, v: WaiterId, ids: seq<Id>, w: WaiterId)
    ensures AnswerOf(Answer(s, v, ids), w) == if v == w && w !in s.answers && w !in s.abandoned then ids else AnswerOf(s, w)
  {
  }

  /** A poll gets exactly what was marked for it, and any other poll's answer stays. */
  lemma {:induction false} MarkedKeepsAnswer(s: State, job: Job, ids: seq<Id>, w: WaiterId)
    requires AnswerFits(s, w)
    ensures AnswerFits(Marked(s, job, ids), w)
  {
    var marked := Both(s.undelivered, ids);
    var more := Records(s, job, marked);
    MarkedDeliveries(s, job, ids);
    MarkedAnswers(s, job, ids, w);
    if (job == NotifyJob(w) || job == TimerJob(w)) && !Late(s, job) {
      GotAll(s.deliveries, s, job, marked, w);
      assert [] + marked == marked;
    } else {
      forall d <- more ensures !For(d, w) {
        var k :| 0 <= k < |more| && more[k] == d;
      }
      GotNothing(s.deliveries, more, w);
    }
  }

  lemma {:induction false} MarkedDeliveries(s: State, job: Job, ids: seq<Id>)
    ensures Marked(s, job, ids).deliveries == s.deliveries + Records(s, job, Both(s.undelivered, ids))
  {
  }

  lemma {:induction false} MarkedAnswers(s: State, job: Job, ids: seq<Id>, w: WaiterId)
    ensures AnswerOf(Marked(s, job, ids), w) ==
      if (job == NotifyJob(w) || job == TimerJob(w)) && !Late(s, job) then Both(s.undelivered, ids) else AnswerOf(s, w)
  {
    var marked := Both(s.undelivered, ids);
    match job
    case NotifyJob(v) => AnswerIs(s, v, marked, w);
    case TimerJob(v) => AnswerIs(s, v, marked, w);
    case _ =>
  }

  /** Only marking makes deliveries; other steps answer polls with nothing, or not at all. */
  lemma {:induction false} OtherKeepsAnswer(s: State, e: Event, w: WaiterId)
    requires !(e.MarkArrives? && s.selection.Busy? && s.selection.stage.Marking?)
    ensures Step(s, e).deliveries == s.deliveries && AnswerOf(Step(s, e), w) == AnswerOf(s, w)
  {
    match e
    case StopPolls => if s.waiter.Some? { AnswerIs(s, s.waiter.value, [], w); }
    case Decide =>
      if s.selection.Busy? { DecidedKeepsAnswer(s, s.selection.job, if s.selection.stage.Listed? then s.selection.stage.pending else [], w); }
    case Throws => if s.selection.Busy? { ThrownKeepsAnswer(s, s.selection.job, w); }
    case _ =>
  }

  lemma {:induction false} DecidedKeepsAnswer(s: State, job: Job, pending: seq<Id>, w: WaiterId)
    ensures Decided(s, job, pending).deliveries == s.deliveries && AnswerOf(Decided(s, job, pending), w) == AnswerOf(s, w)
  {
    match job
    case ReadJob(_) => if s.waiter.Some? { AnswerIs(s, s.waiter.value, [], w); }
    case TimerJob(v) => AnswerIs(s, v, [], w);
    case _ =>
  }

  lemma {:induction false} ThrownKeepsAnswer(s: State, job: Job, w: WaiterId)
    ensures Thrown(s, job).deliveries == s.deliveries && AnswerOf(Thrown(s, job), w) == AnswerOf(s, w)
  {
    match job
    case TimerJob(v) => AnswerIs(s, v, [], w);
    case _ =>
  }

  lemma {:induction false} StepKeepsPolls(s: State, e: Event)
    requires PollsFit(s)
    ensures PollsFit(Step(s, e))
  {
    StepKeepsJob(s, e);
    forall w: WaiterId ensures AnswerFits(Step(s, e), w) {
      assert AnswerFits(s, w);
      if e.MarkArrives? && s.selection.Busy? && s.selection.stage.Marking? {
        MarkedKeepsAnswer(s, s.selection.job, s.selection.stage.ids, w);
      } else {
        OtherKeepsAnswer(s, e, w);
      }
    }
    forall w: WaiterId ensures Accounted(Step(s, e), w) { StepKeepsAccounted(s, e, w); }
  }

  lemma {:induction false} RunKeepsPolls(events: seq<Event>)
    ensures PollsFit(Run(INITIAL, events))
  {
    if events != [] {
      RunKeepsPolls(events[..|events| - 1]);
      StepKeepsPolls(Run(INITIAL, events[..|events| - 1]), events[|events| - 1]);
    }
  }

  lemma {:induction false} GotIs(deliveries: seq<Delivery>, w: WaiterId)
    ensures forall id :: id in Got(deliveries, w) <==> exists d <- deliveries :: For(d, w) && d.id == id
  {
    if deliveries != [] {
      var front, last := deliveries[..|deliveries| - 1], deliveries[|deliveries| - 1];
      assert deliveries == front + [last];
      GotIs(front, w);
    }
  }

  /** In every run, a poll's answer is exactly what was delivered for it, in that order: what
      a notify or a timer marks for a poll that is still open reaches it, and nothing else
      does. Polls that are not answered had nothing delivered for them in time. */
  lemma {:induction false} PollsGetTheirMail(events: seq<Event>, w: WaiterId)
    ensures var s := Run(INITIAL, events);
      && (w in s.answers ==> s.answers[w] == Got(s.deliveries, w))
      && (w !in s.answers ==> Got(s.deliveries, w) == [])
      && (forall d <- s.deliveries :: For(d, w) ==> w in s.answers && d.id in s.answers[w])
      && (w in s.answers ==> forall id <- s.answers[w] :: exists d <- s.deliveries :: For(d, w) && d.id == id)
  {
    RunKeepsPolls(events);
    var s := Run(INITIAL, events);
    assert AnswerFits(s, w);
    GotIs(s.deliveries, w);
    forall d <- s.deliveries | For(d, w) ensures w in s.answers && d.id in s.answers[w] {
      assert d.id in Got(s.deliveries, w);
    }
  }

  /** No message is in the answers of two polls. */
  lemma {:induction false} NoMessageInTwoAnswers(events: seq<Event>, v: WaiterId, w: WaiterId, id: Id)
    requires var s := Run(INITIAL, events); v in s.answers && w in s.answers && id in s.answers[v] && id in s.answers[w]
    ensures v == w
  {
    PollsGetTheirMail(events, v);
    PollsGetTheirMail(events, w);
    RunKeepsInv(events);
    var s := Run(INITIAL, events);
    var d :| d in s.deliveries && For(d, v) && d.id == id;
    var e :| e in s.deliveries && For(e, w) && e.id == id;
    var j :| 0 <= j < |s.deliveries| && s.deliveries[j] == d;
    var k :| 0 <= k < |s.deliveries| && s.deliveries[k] == e;
    assert j == k;
  }

  /** Every poll that ever waited is waiting, was answered or was abandoned, and just one of these. */
  lemma {:induction false} EveryPollIsAccountedFor(events: seq<Event>, w: WaiterId)
    ensures Accounted(Run(INITIAL, events), w)
  {
    RunKeepsPolls(events);
  }

  function Ids(deliveries: seq<Delivery>): seq<Id> {
    seq(|deliveries|, i requires 0 <= i < |deliveries| => deliveries[i].id)
  }

  /** Is the poll still to be answered? */
  predicate Open(s: State, w: WaiterId) {
    w !in s.answers && w !in s.abandoned
  }

  /** Marking for a poll delivers what was listed and is still undelivered, and nothing else;
      the poll gets just that, in that order, unless it was over before. */
  lemma {:induction false} MarkingAnswersThePoll(events: seq<Event>, w: WaiterId) returns (made: seq<Delivery>)
    requires Run(INITIAL, events).selection.Busy? && Run(INITIAL, events).selection.stage.Marking?
    requires Run(INITIAL, events).selection.job in [NotifyJob(w), TimerJob(w)]
    ensures var s, t := Run(INITIAL, events), Run(INITIAL, events + [MarkArrives]);
      && t.deliveries == s.deliveries + made
      && (forall id :: id in Ids(made) <==> id in s.undelivered && id in s.selection.stage.ids)
      && (forall id :: id in t.undelivered <==> id in s.undelivered && id !in s.selection.stage.ids)
      && (forall d <- made :: d.job == s.selection.job && (d.late <==> !Open(s, w)))
      && (if Open(s, w) then t.answers == s.answers[w := Ids(made)] else t.answers == s.answers)
  {
    var s := Run(INITIAL, events);
    assert (events + [MarkArrives])[..|events|] == events;
    made := MarkedForPoll(s, s.selection.job, s.selection.stage.ids, w);
  }

  lemma {:induction false} MarkedForPoll(s: State, job: Job, ids: seq<Id>, w: WaiterId) returns (made: seq<Delivery>)
    requires job == NotifyJob(w) || job == TimerJob(w)
    ensures var t := Marked(s, job, ids);
      && t.deliveries == s.deliveries + made
      && (forall id :: id in Ids(made) <==> id in s.undelivered && id in ids)
      && (forall id :: id in t.undelivered <==> id in s.undelivered && id !in ids)
      && (forall d <- made :: d.job == job && (d.late <==> !Open(s, w)))
      && (if Open(s, w) then t.answers == s.answers[w := Ids(made)] else t.answers == s.answers)
  {
    var marked := Both(s.undelivered, ids);
    MarkedDeliveries(s, job, ids);
    BothMembers(s.undelivered, ids);
    WithoutMembers(s.undelivered, ids);
    made := Records(s, job, marked);
    assert Ids(made) == marked;
    assert Late(s, job) <==> !Open(s, w);
    forall d <- made ensures d.job == job && d.late == Late(s, job) {
      var k :| 0 <= k < |made| && made[k] == d;
    }
  }

  lemma {:induction false} RecordIds(s: State, job: Job, ids: seq<Id>, id: Id)
    ensures (exists d <- Records(s, job, ids) :: d.id == id) <==> id in ids
  {
    var all := Records(s, job, ids);
    if id in ids {
      var k :| 0 <= k < |ids| && ids[k] == id;
      assert all[k] in all;
    }
  }

  /** The four steps of a job that delivers mail, with nothing in between. */
  function Undisturbed(job: Job): seq<Event> {
    [Enter(job), ListArrives, Decide, MarkArrives]
  }

  lemma {:induction false} UndisturbedIs(s: State, job: Job)
    requires MayEnter(s, job) && Lists(job) && job != ClaimJob && Available(s) != []
    ensures var b := s.(selection := Busy(job, Marking(Available(s)))); Run(s, Undisturbed(job)) == Marked(b, job, Available(s))
  {
    var a := s.(selection := Busy(job, Entered));
    var b := s.(selection := Busy(job, Listed(Available(s))));
    var c := s.(selection := Busy(job, Marking(Available(s))));
    assert Step(s, Enter(job)) == a && Step(a, ListArrives) == b && Step(b, Decide) == c;
    assert Run(s, [Enter(job)]) == Step(Run(s, [Enter(job)][..0]), Enter(job));
    RunOn(s, [Enter(job)], [ListArrives]);
    assert Run(a, [ListArrives]) == Step(Run(a, [ListArrives][..0]), ListArrives);
    RunOn(s, [Enter(job)] + [ListArrives], [Decide]);
    assert Run(b, [Decide]) == Step(Run(b, [Decide][..0]), Decide);
    RunOn(s, [Enter(job)] + [ListArrives] + [Decide], [MarkArrives]);
    assert Run(c, [MarkArrives]) == Step(Run(c, [MarkArrives][..0]), MarkArrives);
    assert [Enter(job)] + [ListArrives] + [Decide] + [MarkArrives] == Undisturbed(job);
  }

  /** A drain, a poll, a notify or a timer that is not disturbed delivers all the mail that is
      not claimed, and a waiting poll gets all of it. */
  lemma {:induction false} UnclaimedMailIsDelivered(events: seq<Event>, job: Job, id: Id)
    requires MayEnter(Run(INITIAL, events), job) && Lists(job) && job != ClaimJob
    requires var s := Run(INITIAL, events); id in s.undelivered && s.claim != Some(id)
    ensures var s, t := Run(INITIAL, events), Run(INITIAL, events + Undisturbed(job));
      && (forall x :: x in t.undelivered <==> x in s.undelivered && s.claim == Some(x))
      && (exists d <- t.deliveries :: d.id == id && d.job == job)
      && (forall w: WaiterId :: job == NotifyJob(w) || job == TimerJob(w) ==> w in t.answers && id in t.answers[w])
      && t.selection == Free
  {
    var s := Run(INITIAL, events);
    RunKeepsPolls(events);
    RunOn(INITIAL, events, Undisturbed(job));
    if s.claim.Some? { WithoutMembers(s.undelivered, [s.claim.value]); }
    var ids := Available(s);
    assert id in ids;
    UndisturbedIs(s, job);
    var b := s.(selection := Busy(job, Marking(ids)));
    BothMembers(s.undelivered, ids);
    WithoutMembers(s.undelivered, ids);
    MarkedDeliveries(b, job, ids);
    RecordIds(b, job, Both(s.undelivered, ids), id);
    var d :| d in Records(b, job, Both(s.undelivered, ids)) && d.id == id;
    assert d in Marked(b, job, ids).deliveries;
    forall w: WaiterId | job == NotifyJob(w) || job == TimerJob(w) ensures w in Marked(b, job, ids).answers && id in Marked(b, job, ids).answers[w] {
      assert Accounted(s, w);
    }
  }

  // ---------- a claim always can end ----------

  lemma {:induction false} RunOn(s: State, events: seq<Event>, more: seq<Event>)
    ensures Run(s, events + more) == Run(Run(s, events), more)
  {
    if more == [] {
      assert events + more == events;
    } else {
      RunOn(s, events, more[..|more| - 1]);
      assert (events + more)[..|events + more| - 1] == events + more[..|more| - 1];
    }
  }

  /** What is under way goes on: the job that has the lock, or else the wake. */
  function Pending(s: State, accepted: bool): Event {
    match s.selection
    case Busy(job, Entered) => if Lists(job) then ListArrives else Decide
    case Busy(_, Listed(_)) => Decide
    case Busy(_, Marking(_)) => MarkArrives
    case Free =>
      match s.wake
      case Claimed(_) => WakeProceeds
      case Waking(_) => NativeResult(accepted)
      case Accepted(_) => Enter(MarkJob)
      case _ => Enter(ReleaseJob)
  }

  function WakeLeft(s: State): nat {
    match s.wake
    case Claimed(_) => 4
    case Waking(_) => 3
    case Accepted(_) => 2
    case Releasing(_) => 1
    case _ => 0
  }

  function StageLeft(stage: Stage): nat {
    match stage
    case Entered => 3
    case Listed(_) => 2
    case Marking(_) => 1
  }

  /** Another job has to leave before the wake's own can enter. */
  function SelectionLeft(s: State): nat {
    match s.selection
    case Free => 4
    case Busy(job, stage) =>
      if (job == MarkJob && s.wake.Accepted?) || (job == ReleaseJob && s.wake.Releasing?) then StageLeft(stage)
      else 4 + StageLeft(stage)
  }

  predicate Released(s: State) {
    s.claim.None? && s.wake == NoWake && s.selection == Free
  }

  lemma JobGoesOn(s: State, accepted: bool)
    requires Inv(s) && s.claim.Some? && s.selection.Busy?
    ensures var t := Step(s, Pending(s, accepted));
      || Released(t)
      || (t.claim == s.claim && WakeLeft(t) < WakeLeft(s))
      || (t.claim == s.claim && WakeLeft(t) == WakeLeft(s) && SelectionLeft(t) < SelectionLeft(s))
  {
  }

  lemma WakeGoesOn(s: State, accepted: bool)
    requires Inv(s) && s.claim.Some? && s.selection.Free?
    ensures var t := Step(s, Pending(s, accepted));
      || (t.claim == s.claim && WakeLeft(t) < WakeLeft(s))
      || (t.claim == s.claim && WakeLeft(t) == WakeLeft(s) && SelectionLeft(t) < SelectionLeft(s))
  {
  }

  lemma {:induction false} Releases(s: State, accepted: bool) returns (more: seq<Event>)
    requires Inv(s) && s.claim.Some?
    ensures Released(Run(s, more))
    ensures forall e <- more :: e in {ListArrives, Decide, MarkArrives, WakeProceeds, NativeResult(accepted), Enter(MarkJob), Enter(ReleaseJob)}
    decreases WakeLeft(s), SelectionLeft(s)
  {
    var e := Pending(s, accepted);
    var t := Step(s, e);
    if s.selection.Busy? { JobGoesOn(s, accepted); } else { WakeGoesOn(s, accepted); }
    StepKeepsInv(s, e);
    var rest := [];
    if !Released(t) { rest := Releases(t, accepted); }
    more := [e] + rest;
    RunOn(s, [e], rest);
    assert Run(s, [e]) == Step(Run(s, [e][..0]), e);
  }

  /** No claim is stuck: from wherever a run has come to, whatever holds the lock and
      whatever the agent says, letting what is under way finish releases the claim. */
  lemma ClaimCanEnd(events: seq<Event>, accepted: bool) returns (more: seq<Event>)
    requires Run(INITIAL, events).claim.Some?
    ensures Released(Run(INITIAL, events + more))
    ensures forall e <- more :: e in {ListArrives, Decide, MarkArrives, WakeProceeds, NativeResult(accepted), Enter(MarkJob), Enter(ReleaseJob)}
  {
    RunKeepsInv(events);
    more := Releases(Run(INITIAL, events), accepted);
    RunOn(INITIAL, events, more);
  }

  // ---------- mail for a poll that has gone ----------

  predicate JobOf(job: Job, w: WaiterId) {
    job == NotifyJob(w) || job == TimerJob(w)
  }

  /** Is mail being marked for this poll? */
  predicate MarkingFor(s: State, w: WaiterId) {
    s.selection.Busy? && s.selection.stage.Marking? && JobOf(s.selection.job, w)
  }

  /** What a job of a poll delivers reaches that poll exactly if the poll was not over when it
      was marked. */
  lemma {:induction false} ReachesUnlessLate(events: seq<Event>, d: Delivery, w: WaiterId)
    requires d in Run(INITIAL, events).deliveries && JobOf(d.job, w)
    ensures var s := Run(INITIAL, events); (w in s.answers && d.id in s.answers[w]) <==> !d.late
  {
    PollsGetTheirMail(events, w);
    var s := Run(INITIAL, events);
    forall e <- s.deliveries ensures e.id == d.id ==> e == d { OneDelivery(events, d, e); }
  }

  /** A client that goes away while mail is being marked for its poll loses that mail: it is
      delivered, and no poll has it. */
  lemma {:induction false} GoneWhileMarking(events: seq<Event>, w: WaiterId, id: Id)
    requires Run(INITIAL, events).waiter == Some(w) && MarkingFor(Run(INITIAL, events), w)
    requires id in Run(INITIAL, events).undelivered && id in Run(INITIAL, events).selection.stage.ids
    ensures var t := Run(INITIAL, events + [Abandon] + [MarkArrives]);
      && id !in t.undelivered
      && (exists d <- t.deliveries :: d.id == id && d.late)
      && forall v <- t.answers :: id !in t.answers[v]
  {
    var s, gone := Run(INITIAL, events), events + [Abandon];
    assert gone[..|events|] == events;
    var made := MarkingAnswersThePoll(gone, w);
    var t := Run(INITIAL, gone + [MarkArrives]);
    assert id in Ids(made);
    var k :| 0 <= k < |made| && Ids(made)[k] == id;
    var d := made[k];
    assert d in made && d in t.deliveries && d.late;
    forall v <- t.answers ensures id !in t.answers[v] { LateIsInNoAnswer(gone + [MarkArrives], d, w, v); }
  }

  lemma {:induction false} LateIsInNoAnswer(events: seq<Event>, d: Delivery, w: WaiterId, v: WaiterId)
    requires var s := Run(INITIAL, events); d in s.deliveries && JobOf(d.job, w) && d.late && v in s.answers
    ensures d.id !in Run(INITIAL, events).answers[v]
  {
    PollsGetTheirMail(events, v);
    var s := Run(INITIAL, events);
    forall e <- s.deliveries ensures e.id == d.id ==> e == d { OneDelivery(events, d, e); }
  }

  lemma {:induction false} OneDelivery(events: seq<Event>, d: Delivery, e: Delivery)
    requires d in Run(INITIAL, events).deliveries && e in Run(INITIAL, events).deliveries
    ensures e.id == d.id ==> e == d
  {
    RunKeepsInv(events);
    var s := Run(INITIAL, events);
    var j :| 0 <= j < |s.deliveries| && s.deliveries[j] == d;
    var k :| 0 <= k < |s.deliveries| && s.deliveries[k] == e;
  }

  const POLL: seq<Event> := [Enter(ReadJob(true)), ListArrives, Decide]
  const NOTIFY: seq<Event> := [Enter(NotifyJob(0)), ListArrives, Decide]

  /** Such a run: a poll waits, a message comes, and the client goes while it is being marked. */
  lemma {:induction false} LostOnTheWay()
    ensures var s := Run(INITIAL, POLL + [Append] + NOTIFY);
      s == INITIAL.(nextId := 1, undelivered := [0], waiter := Some(0), nextWaiter := 1, selection := Busy(NotifyJob(0), Marking([0])))
    ensures var t := Run(INITIAL, POLL + [Append] + NOTIFY + [Abandon] + [MarkArrives]);
      0 !in t.undelivered && (exists d <- t.deliveries :: d.id == 0) && forall v <- t.answers :: 0 !in t.answers[v]
  {
    PollWaits();
    RunOn(INITIAL, POLL + [Append], NOTIFY);
    NotifyMarks(INITIAL.(nextId := 1, undelivered := [0], waiter := Some(0), nextWaiter := 1));
    GoneWhileMarking(POLL + [Append] + NOTIFY, 0, 0);
  }

  lemma {:induction false} PollWaits()
    ensures Run(INITIAL, POLL + [Append]) == INITIAL.(nextId := 1, undelivered := [0], waiter := Some(0), nextWaiter := 1)
  {
    RunThree(INITIAL, Enter(ReadJob(true)), ListArrives, Decide);
    assert (POLL + [Append])[..3] == POLL;
    assert [] + [0] == [0];
  }

  lemma {:induction false} NotifyMarks(s: State)
    requires s.selection == Free && s.waiter == Some(0) && s.undelivered == [0] && s.claim.None?
    ensures Run(s, NOTIFY) == s.(selection := Busy(NotifyJob(0), Marking([0])))
  {
    RunThree(s, Enter(NotifyJob(0)), ListArrives, Decide);
  }

  /** Nothing is being marked for this poll, and nothing will be. */
  predicate Gone(s: State, w: WaiterId) {
    w in s.abandoned && w < s.nextWaiter && s.waiter != Some(w) && !MarkingFor(s, w)
  }

  lemma {:induction false} GoneStays(s: State, e: Event, w: WaiterId)
    requires Gone(s, w)
    ensures Gone(Step(s, e), w)
  {
    if e.Decide? && s.selection.Busy? {
      GoneStaysOnDecide(s, s.selection.job, if s.selection.stage.Listed? then s.selection.stage.pending else [], w);
    }
  }

  lemma {:induction false} GoneStaysOnDecide(s: State, job: Job, pending: seq<Id>, w: WaiterId)
    requires Gone(s, w) && s.selection.Busy? && s.selection.job == job
    ensures Gone(Decided(s, job, pending), w)
  {
  }

  /** At any other moment a client may go away and nothing is lost: whatever follows, no mail
      is ever marked for its poll. */
  lemma {:induction false} GoneAtAnotherMoment(events: seq<Event>, w: WaiterId, more: seq<Event>)
    requires Run(INITIAL, events).waiter == Some(w) && !MarkingFor(Run(INITIAL, events), w)
    ensures var s, t := Run(INITIAL, events), Run(INITIAL, events + [Abandon] + more);
      && Gone(t, w)
      && s.deliveries <= t.deliveries
      && forall d <- t.deliveries[|s.deliveries|..] :: !JobOf(d.job, w)
  {
    var s, gone := Run(INITIAL, events), events + [Abandon];
    if more == [] {
      assert gone + more == gone && gone[..|events|] == events;
      RunKeepsPolls(events);
      assert Accounted(s, w);
    } else {
      var front, last := more[..|more| - 1], more[|more| - 1];
      GoneAtAnotherMoment(events, w, front);
      assert gone + more == (gone + front) + [last];
      assert (gone + more)[..|gone + front|] == gone + front;
      var t := Run(INITIAL, gone + front);
      GoneStays(t, last, w);
      GoneGetsNothing(t, last, w);
    }
  }

  lemma {:induction false} GoneGetsNothing(s: State, e: Event, w: WaiterId)
    requires Gone(s, w)
    ensures var t := Step(s, e); s.deliveries <= t.deliveries && forall d <- t.deliveries[|s.deliveries|..] :: !JobOf(d.job, w)
  {
    if e.MarkArrives? && s.selection.Busy? && s.selection.stage.Marking? {
      var job, ids := s.selection.job, s.selection.stage.ids;
      MarkedDeliveries(s, job, ids);
      var made := Records(s, job, Both(s.undelivered, ids));
      assert (s.deliveries + made)[|s.deliveries|..] == made;
    } else {
      OtherKeepsAnswer(s, e, w);
    }
  }

  // ---------- no message is lost ----------

  function Appends(events: seq<Event>): nat {
    if events == [] then 0 else Appends(events[..|events| - 1]) + if events[|events| - 1] == Append then 1 else 0
  }

  ghost predicate NothingLost(s: State) {
    forall id: Id :: id < s.nextId ==> id in s.undelivered || id in DeliveredIds(s.deliveries)
  }

  lemma {:induction false} MarkedLosesNothing(s: State, job: Job, ids: seq<Id>)
    requires NothingLost(s)
    ensures NothingLost(Marked(s, job, ids)) && Marked(s, job, ids).nextId == s.nextId
  {
    var t := Marked(s, job, ids);
    var marked := Both(s.undelivered, ids);
    MarkedDeliveries(s, job, ids);
    MarkedUndelivered(s, job, ids);
    BothMembers(s.undelivered, ids);
    WithoutMembers(s.undelivered, ids);
    forall id: Id | id < s.nextId ensures id in t.undelivered || id in DeliveredIds(t.deliveries) {
      if id in DeliveredIds(s.deliveries) {
        var d :| d in s.deliveries && d.id == id;
        assert d in t.deliveries;
      } else if id in ids {
        RecordIds(s, job, marked, id);
        var d :| d in Records(s, job, marked) && d.id == id;
        assert d in t.deliveries;
      }
    }
  }

  lemma {:induction false} MarkedUndelivered(s: State, job: Job, ids: seq<Id>)
    ensures Marked(s, job, ids).undelivered == Without(s.undelivered, ids) && Marked(s, job, ids).nextId == s.nextId
  {
  }

  /** Steps that neither store nor mark leave the mail alone. */
  lemma {:induction false} OthersLeaveMail(s: State, e: Event)
    requires e != Append && !(e.MarkArrives? && s.selection.Busy? && s.selection.stage.Marking?)
    ensures var t := Step(s, e); t.undelivered == s.undelivered && t.deliveries == s.deliveries && t.nextId == s.nextId
  {
  }

  /** In every run each message that was stored is still undelivered or was delivered, whatever
      failed, gave up or went away in between. */
  lemma {:induction false} NoMessageIsLost(events: seq<Event>, id: Id)
    requires id < Appends(events)
    ensures var s := Run(INITIAL, events); id in s.undelivered || exists d <- s.deliveries :: d.id == id
  {
    RunLosesNothing(events);
  }

  lemma {:induction false} RunLosesNothing(events: seq<Event>)
    ensures NothingLost(Run(INITIAL, events)) && Run(INITIAL, events).nextId == Appends(events)
  {
    if events != [] {
      var front, e := events[..|events| - 1], events[|events| - 1];
      var s := Run(INITIAL, front);
      RunLosesNothing(front);
      if e == Append {
      } else if e.MarkArrives? && s.selection.Busy? && s.selection.stage.Marking? {
        MarkedLosesNothing(s, s.selection.job, s.selection.stage.ids);
      } else {
        OthersLeaveMail(s, e);
      }
    }
  }

  // ---------- what a wake comes to ----------

  lemma {:induction false} RunThree(s: State, a: Event, b: Event, c: Event)
    ensures Run(s, [a, b, c]) == Step(Step(Step(s, a), b), c)
  {
    assert [a, b, c] == [a] + [b] + [c];
    RunOn(s, [], [a]);
    RunOn(s, [a], [b]);
    RunOn(s, [a] + [b], [c]);
    assert [] + [a] == [a] && [a][..0] == [] && [b][..0] == [] && [c][..0] == [];
  }

  /** A wake in a quiet moment claims the oldest message that is not delivered. */
  lemma {:induction false} WakeClaims(s: State)
    requires s.selection == Free && s.wake == NoWake && s.claim.None? && s.undelivered != []
    ensures Run(Step(s, WakeStarts), [Enter(ClaimJob), ListArrives, Decide])
      == s.(current := true, claim := Some(s.undelivered[0]), wake := Claimed(s.undelivered[0]))
  {
    RunThree(Step(s, WakeStarts), Enter(ClaimJob), ListArrives, Decide);
  }

  /** Once the agent took the message it is delivered, by this wake, and nothing else is. */
  lemma {:induction false} AcceptedIsDelivered(s: State, id: Id)
    requires s.selection == Free && s.wake == Claimed(id) && s.claim == Some(id) && s.current && id in s.undelivered && Distinct(s.undelivered)
    ensures var taken := Step(Step(s, WakeProceeds), NativeResult(true));
      var t := Run(taken, [Enter(MarkJob), Decide, MarkArrives]);
      && t.deliveries == s.deliveries + [Delivery(id, MarkJob, Some(id), Accepted(id), false)]
      && (forall x :: x in t.undelivered <==> x in s.undelivered && x != id)
      && t.wake == Releasing(id) && t.claim == Some(id) && t.selection == Free && t.answers == s.answers
  {
    var taken := s.(wake := Accepted(id));
    assert Step(Step(s, WakeProceeds), NativeResult(true)) == taken;
    RunThree(taken, Enter(MarkJob), Decide, MarkArrives);
    var marking := taken.(selection := Busy(MarkJob, Marking([id])));
    assert Step(Step(taken, Enter(MarkJob)), Decide) == marking;
    BothMembers(s.undelivered, [id]);
    WithoutMembers(s.undelivered, [id]);
    OnlyOne(Both(s.undelivered, [id]), id);
    MarkedDeliveries(marking, MarkJob, [id]);
    assert Both(marking.undelivered, [id]) == [id];
    assert !Late(marking, MarkJob) && marking.claim == Some(id) && marking.wake == Accepted(id);
    assert Records(marking, MarkJob, [id]) == [Records(marking, MarkJob, [id])[0]];
    assert Records(marking, MarkJob, [id])[0] == Delivery(id, MarkJob, Some(id), Accepted(id), false);
  }

  lemma {:induction false} OnlyOne(ids: seq<Id>, id: Id)
    requires Distinct(ids) && forall x :: x in ids <==> x == id
    ensures ids == [id]
  {
    assert |ids| > 1 ==> ids[0] != ids[1];
    assert id in ids;
    assert forall k :: 0 <= k < |ids| ==> ids[k] in ids;
  }

  /** If the agent does not take it, or the wake is no longer wanted, it stays undelivered. */
  lemma {:induction false} RefusedStays(s: State, id: Id, accepted: bool)
    requires s.selection == Free && s.wake == Claimed(id) && s.claim == Some(id) && (!accepted || !s.current)
    ensures var t := Step(Step(s, WakeProceeds), NativeResult(accepted));
      t == s.(wake := Releasing(id))
  {
  }

  /** Marking that fails leads to the finally block as well. */
  lemma {:induction false} FailedMarkReleases(s: State, id: Id)
    requires s.selection == Busy(MarkJob, Marking([id])) && s.wake == Accepted(id)
    ensures Step(s, Throws) == s.(selection := Free, wake := Releasing(id))
  {
  }

  /** A wake that cannot see the mail ends without a claim. */
  lemma {:induction false} FailedClaimEnds(s: State)
    requires s.selection == Busy(ClaimJob, Entered) && s.wake == Starting && s.claim.None?
    ensures Step(s, Throws) == s.(selection := Free, wake := NoWake)
  {
  }

  /** And then the claim goes, and nothing is left of the wake. */
  lemma {:induction false} ReleasedIsQuiet(s: State, id: Id)
    requires s.selection == Free && s.wake == Releasing(id) && s.claim == Some(id)
    ensures Step(Step(s, Enter(ReleaseJob)), Decide) == s.(claim := None, wake := NoWake)
  {
  }
}

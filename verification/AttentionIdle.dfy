/** The notice a parent gets when a session stays idle. */
module AttentionIdle {
  import opened Results

  // One session's ledger file, its lock, its timer, and every order in which hooks, timers,
  // restarts and crashes can meet. A step is what runs between two awaits.

  const DELAY: nat := 120_000
  const LEGACY_DELAY: nat := 600_000
  /** A cycle whose due time is read from the clock this much after its start looks like
      one of an earlier version. */
  const LOOK_ALIKE: nat := LEGACY_DELAY - DELAY

  type CycleId = nat

  datatype Activity = Thinking | ToolUse | Idle | Unknown

  datatype Cycle = Cycle(id: CycleId, startedAt: nat, dueAt: nat, notifiedAt: Option<nat>)

  /** What attention.json says about idleness. */
  datatype Disk = Disk(activity: Activity, cycle: Option<Cycle>)

  /** What a holder of the lock is saving. */
  datatype Purpose = ForRecord(cancels: bool) | ForNotice(cycle: CycleId) | ForInactive | ForRestore | ForCancel

  datatype Lock =
    | Free
    | Probing(cycle: CycleId)                               // awaiting isSessionActive
    | Saving(copy: Disk, purpose: Purpose, committed: bool) // awaiting save; committed after the rename
    | Notifying(cycle: CycleId)                             // awaiting onSubagentIdle

  datatype Notice = Notice(cycle: CycleId, at: nat)

  datatype State = State(
    now: nat,
    disk: Disk,
    nextCycle: CycleId,     // cycle ids are fresh
    timer: Option<CycleId>, // idleTimers
    stopped: bool,
    lock: Lock,
    notices: seq<Notice>,   // calls of onSubagentIdle, over all lives of the process
    cancelled: set<CycleId>,
    lookAlikes: set<CycleId>) // own cycles whose two clock readings were LOOK_ALIKE apart

  datatype Event =
    | Tick(ms: nat)
    | Cancelling                               // the part of record and cancel before the lock
    | Record(activity: Option<Activity>, sessionEnd: bool, lag: nat) // lag: between its two readings of the clock
    | Emit(cycle: CycleId)                     // a timer's callback reaches the lock
    | Probed(active: bool)
    | Commit                                   // the rename
    | Saved                                    // save returned
    | SaveFailed                               // save threw, before or after the rename
    | Notified                                 // onSubagentIdle returned or threw
    | Restore
    | Cancel
    | Stop
    | Crash                                    // and restart

  predicate Cancels(activity: Option<Activity>, sessionEnd: bool) {
    activity == Some(Thinking) || activity == Some(ToolUse) || sessionEnd
  }

  predicate IsLegacy(c: Cycle) {
    c.dueAt == c.startedAt + LEGACY_DELAY
  }

  function Schedule(s: State, c: Cycle): State {
    if s.stopped || c.notifiedAt.Some? then s else s.(timer := Some(c.id))
  }

  /** The ledger copy a hook event saves. */
  function Observed(s: State, activity: Option<Activity>, sessionEnd: bool, lag: nat): Disk {
    var cycle :=
      if Cancels(activity, sessionEnd) then None
      else if activity == Some(Idle) && (s.disk.activity == Thinking || s.disk.activity == ToolUse) then
        Some(Cycle(s.nextCycle, s.now, s.now + lag + DELAY, None))
      else s.disk.cycle;
    Disk(if activity.Some? then activity.value else s.disk.activity, cycle)
  }

  /** The continuation of save(). */
  function AfterSave(s: State, copy: Disk, purpose: Purpose): State {
    match purpose
    case ForRecord(_) =>
      var t := s.(lock := Free);
      if copy.activity == Idle && copy.cycle.Some? && s.timer.None? then Schedule(t, copy.cycle.value) else t
    case ForNotice(c) =>
      if s.stopped || s.timer != Some(c) then s.(lock := Free)
      else s.(lock := Notifying(c), notices := s.notices + [Notice(c, s.now)])
    case ForInactive => s.(lock := Free, timer := None)
    case ForRestore =>
      var t := s.(lock := Free);
      if copy.activity == Idle && copy.cycle.Some? then Schedule(t, copy.cycle.value) else t
    case ForCancel => s.(lock := Free)
  }

  function Forget(s: State, c: CycleId): State {
    if s.timer == Some(c) then s.(timer := None) else s
  }

  function Step(s: State, e: Event): State {
    match e
    case Tick(ms) => s.(now := s.now + ms)
    case Cancelling => s.(timer := None)
    case Record(activity, sessionEnd, lag) =>
      if s.lock != Free then s
      else
        var cancels := Cancels(activity, sessionEnd);
        s.(now := s.now + lag,
           lock := Saving(Observed(s, activity, sessionEnd, lag), ForRecord(cancels), false),
           nextCycle := s.nextCycle + 1,
           lookAlikes := if lag == LOOK_ALIKE then s.lookAlikes + {s.nextCycle} else s.lookAlikes,
           timer := if cancels then None else s.timer)
    case Emit(c) =>
      if s.lock != Free || s.stopped || s.timer != Some(c) then s
      else if s.disk.cycle.None? || s.disk.cycle.value.id != c || s.disk.cycle.value.notifiedAt.Some? || s.disk.activity != Idle then
        s.(timer := None)
      else s.(lock := Probing(c))
    case Probed(active) =>
      if !s.lock.Probing? then s
      else
        var c := s.lock.cycle;
        if s.stopped || s.timer != Some(c) || s.disk.cycle.None? then s.(lock := Free)
        else if !active then s.(lock := Saving(s.disk.(cycle := None), ForInactive, false))
        else if s.now < s.disk.cycle.value.dueAt then Schedule(s.(lock := Free), s.disk.cycle.value)
        else s.(lock := Saving(s.disk.(cycle := Some(s.disk.cycle.value.(notifiedAt := Some(s.now)))), ForNotice(c), false))
    case Commit =>
      if !s.lock.Saving? || s.lock.committed then s
      else
        var gone := if s.disk.cycle.Some? && (s.lock.purpose == ForRecord(true) || s.lock.purpose.ForInactive? || s.lock.purpose.ForCancel?)
                    then {s.disk.cycle.value.id} else {};
        s.(disk := s.lock.copy, lock := s.lock.(committed := true), cancelled := s.cancelled + gone)
    case Saved => if s.lock.Saving? && s.lock.committed then AfterSave(s, s.lock.copy, s.lock.purpose) else s
    case SaveFailed =>
      if !s.lock.Saving? then s
      else if s.lock.purpose.ForNotice? then Forget(s.(lock := Free), s.lock.purpose.cycle)
      else s.(lock := Free)
    case Notified => if s.lock.Notifying? then Forget(s.(lock := Free), s.lock.cycle) else s
    case Restore =>
      if s.lock != Free || s.stopped || s.disk.cycle.None? then s
      else
        var c := s.disk.cycle.value;
        if IsLegacy(c) then
          s.(lock := Saving(s.disk.(cycle := Some(c.(dueAt := c.startedAt + DELAY, notifiedAt := None))), ForRestore, false))
        else if s.disk.activity == Idle then Schedule(s, c)
        else s
    case Cancel =>
      if s.lock != Free then s
      else if s.disk.cycle.None? then s.(timer := None)
      else s.(timer := None, lock := Saving(s.disk.(cycle := None), ForCancel, false))
    case Stop => s.(stopped := true, timer := None)
    case Crash => s.(timer := None, stopped := false, lock := Free)
  }

  function Run(s: State, events: seq<Event>): State {
    if events == [] then s else Step(Run(s, events[..|events| - 1]), events[|events| - 1])
  }

  /** A bridge starting on any file an earlier version may have left. */
  ghost predicate Initial(s: State) {
    && s.timer.None? && s.lock == Free && s.notices == [] && s.cancelled == {} && s.lookAlikes == {}
    && (s.disk.cycle.Some? ==> s.disk.cycle.value.id < s.nextCycle)
  }

  // ---------- the invariant ----------

  predicate Told(s: State, c: CycleId) {
    exists k :: 0 <= k < |s.notices| && s.notices[k].cycle == c
  }

  /** A cycle that this code started and that does not look like one of an earlier version. */
  predicate Own(s: State, first: CycleId, c: CycleId) {
    c >= first && c !in s.lookAlikes
  }

  /** A stored cycle: its id was given out, and one of our own that was told is marked. */
  predicate StoredFits(s: State, first: CycleId, c: Cycle) {
    && c.id < s.nextCycle && c.id !in s.cancelled
    && (Own(s, first, c.id) ==> !IsLegacy(c))
    && (Own(s, first, c.id) && Told(s, c.id) ==> c.notifiedAt.Some?)
    && (c.notifiedAt.Some? && c.id >= first ==> c.dueAt <= c.notifiedAt.value <= s.now)
  }

  predicate CopyFits(s: State, first: CycleId, copy: Disk, purpose: Purpose) {
    && (copy.cycle.Some? ==> StoredFits(s, first, copy.cycle.value))
    && match purpose
       case ForRecord(cancels) =>
         cancels ==> copy.cycle.None?
       case ForNotice(c) =>
         copy.cycle.Some? && copy.cycle.value.id == c && copy.cycle.value.notifiedAt.Some?
         && copy.cycle.value.dueAt <= copy.cycle.value.notifiedAt.value <= s.now
         && (Own(s, first, c) ==> !Told(s, c))
       case ForInactive => copy.cycle.None?
       case ForRestore => copy.cycle.Some? && !Own(s, first, copy.cycle.value.id)
       case ForCancel => copy.cycle.None?
  }

  ghost predicate Inv(s: State, first: CycleId) {
    && first <= s.nextCycle
    && (forall k :: 0 <= k < |s.notices| ==> s.notices[k].cycle < s.nextCycle)
    && (forall c <- s.cancelled :: c < s.nextCycle)
    && (s.disk.cycle.Some? ==> StoredFits(s, first, s.disk.cycle.value))
    && (s.lock.Saving? && !s.lock.committed ==> CopyFits(s, first, s.lock.copy, s.lock.purpose))
    && (s.lock.Saving? && s.lock.committed && s.lock.purpose.ForNotice? ==>
          && s.disk == s.lock.copy && s.disk.cycle.Some?
          && s.disk.cycle.value.id == s.lock.purpose.cycle
          && s.disk.cycle.value.notifiedAt.Some?
          && s.disk.cycle.value.dueAt <= s.disk.cycle.value.notifiedAt.value <= s.now
          && (Own(s, first, s.lock.purpose.cycle) ==> !Told(s, s.lock.purpose.cycle)))
    && (s.lock.Probing? ==>
          && s.disk.cycle.Some? && s.disk.cycle.value.id == s.lock.cycle && s.disk.cycle.value.notifiedAt.None?)
    && (forall j, k :: 0 <= j < k < |s.notices| && s.notices[j].cycle == s.notices[k].cycle ==> !Own(s, first, s.notices[j].cycle))
  }

  lemma ToldGrows(s: State, n: Notice, c: CycleId)
    ensures Told(s.(notices := s.notices + [n]), c) <==> Told(s, c) || n.cycle == c
  {
    var t := s.(notices := s.notices + [n]);
    assert forall k :: 0 <= k < |s.notices| ==> t.notices[k] == s.notices[k];
    assert t.notices[|s.notices|] == n;
  }

  lemma MemoryStepKeepsInv(s: State, first: CycleId, e: Event)
    requires Inv(s, first)
    requires e.Cancelling? || e.Stop? || e.Crash?
    ensures Inv(Step(s, e), first)
  {
  }

  lemma TickKeepsInv(s: State, first: CycleId, ms: nat)
    requires Inv(s, first)
    ensures Inv(Step(s, Tick(ms)), first)
  {
  }

  lemma EndStepKeepsInv(s: State, first: CycleId, e: Event)
    requires Inv(s, first)
    requires e.Notified? || e.SaveFailed?
    ensures Inv(Step(s, e), first)
  {
  }

  lemma BeginStepKeepsInv(s: State, first: CycleId, e: Event)
    requires Inv(s, first)
    requires e.Record? || e.Cancel?
    ensures Inv(Step(s, e), first)
  {
  }

  lemma EmitStepKeepsInv(s: State, first: CycleId, e: Event)
    requires Inv(s, first)
    requires e.Emit? || e.Probed?
    ensures Inv(Step(s, e), first)
  {
  }

  lemma RestoreStepKeepsInv(s: State, first: CycleId)
    requires Inv(s, first)
    ensures Inv(Step(s, Restore), first)
  {
  }

  lemma CommitStepKeepsInv(s: State, first: CycleId)
    requires Inv(s, first)
    ensures Inv(Step(s, Commit), first)
  {
  }

  /** A save that was not for a notice: at most the timer is set. */
  lemma SavedKeepsInv(s: State, first: CycleId)
    requires Inv(s, first) && s.lock.Saving? && s.lock.committed && !s.lock.purpose.ForNotice?
    ensures Inv(Step(s, Saved), first)
  {
  }

  lemma NoticeKeepsInv(s: State, first: CycleId)
    requires Inv(s, first) && s.lock.Saving? && s.lock.committed && s.lock.purpose.ForNotice?
    ensures Inv(Step(s, Saved), first)
  {
    var c := s.lock.purpose.cycle;
    forall d: CycleId ensures Told(s.(notices := s.notices + [Notice(c, s.now)]), d) <==> Told(s, d) || c == d {
      ToldGrows(s, Notice(c, s.now), d);
    }
  }

  lemma SavedStepKeepsInv(s: State, first: CycleId)
    requires Inv(s, first)
    ensures Inv(Step(s, Saved), first)
  {
    if s.lock.Saving? && s.lock.committed {
      if s.lock.purpose.ForNotice? { NoticeKeepsInv(s, first); } else { SavedKeepsInv(s, first); }
    }
  }

  lemma StepKeepsInv(s: State, first: CycleId, e: Event)
    requires Inv(s, first)
    ensures Inv(Step(s, e), first)
  {
    match e
    case Record(_, _, _) => BeginStepKeepsInv(s, first, e);
    case Cancel => BeginStepKeepsInv(s, first, e);
    case Emit(_) => EmitStepKeepsInv(s, first, e);
    case Probed(_) => EmitStepKeepsInv(s, first, e);
    case Restore => RestoreStepKeepsInv(s, first);
    case Commit => CommitStepKeepsInv(s, first);
    case Saved => SavedStepKeepsInv(s, first);
    case Tick(ms) => TickKeepsInv(s, first, ms);
    case Notified => EndStepKeepsInv(s, first, e);
    case SaveFailed => EndStepKeepsInv(s, first, e);
    case _ => MemoryStepKeepsInv(s, first, e);
  }

  lemma {:induction false} RunKeepsInv(s: State, events: seq<Event>)
    requires Initial(s)
    ensures Inv(Run(s, events), s.nextCycle)
  {
    if events != [] {
      RunKeepsInv(s, events[..|events| - 1]);
      StepKeepsInv(Run(s, events[..|events| - 1]), s.nextCycle, events[|events| - 1]);
    }
  }

  // ---------- the promises ----------

  /** A cycle this code started is told to the parent at most once, over all restarts,
      unless its two readings of the clock were LOOK_ALIKE apart. */
  lemma AtMostOneNotice(s: State, events: seq<Event>, j: nat, k: nat)
    requires Initial(s)
    requires var t := Run(s, events); j < k < |t.notices| && Own(t, s.nextCycle, t.notices[j].cycle)
    ensures Run(s, events).notices[j].cycle != Run(s, events).notices[k].cycle
  {
    RunKeepsInv(s, events);
  }

  lemma NoticeStep(s: State, first: CycleId, e: Event)
    requires Inv(s, first) && |Step(s, e).notices| > |s.notices|
    ensures e == Saved && s.disk.cycle.Some? && s.disk.cycle.value.notifiedAt.Some? && !s.stopped
    ensures s.disk.cycle.value.dueAt <= s.disk.cycle.value.notifiedAt.value <= s.now
    ensures Step(s, e).notices == s.notices + [Notice(s.disk.cycle.value.id, s.now)]
  {
  }

  /** A notice goes out only once its mark is on disk, and not before its time. */
  lemma NoticeIsMarkedAndDue(s: State, events: seq<Event>, e: Event)
    requires Initial(s)
    requires |Run(s, events + [e]).notices| > |Run(s, events).notices|
    ensures var t := Run(s, events); var t' := Run(s, events + [e]);
      && t.disk.cycle.Some? && t.disk.cycle.value.notifiedAt.Some?
      && t'.notices == t.notices + [Notice(t.disk.cycle.value.id, t.now)]
      && t.disk.cycle.value.dueAt <= t.disk.cycle.value.notifiedAt.value <= t.now
      && !t.stopped
  {
    RunKeepsInv(s, events);
    assert (events + [e])[..|events|] == events;
    NoticeStep(Run(s, events), s.nextCycle, e);
  }

  predicate Silent(before: seq<Notice>, after: seq<Notice>, c: CycleId) {
    before <= after && forall k :: |before| <= k < |after| ==> after[k].cycle != c
  }

  lemma SilentOn(a: seq<Notice>, b: seq<Notice>, d: seq<Notice>, c: CycleId)
    requires Silent(a, b, c) && Silent(b, d, c)
    ensures Silent(a, d, c)
  {
    assert forall k :: 0 <= k < |b| ==> d[k] == b[k];
  }

  lemma CancelledStep(s: State, first: CycleId, e: Event, c: CycleId)
    requires Inv(s, first) && c in s.cancelled
    ensures c in Step(s, e).cancelled && Silent(s.notices, Step(s, e).notices, c)
  {
    if |Step(s, e).notices| > |s.notices| { NoticeStep(s, first, e); } else { NoNotice(s, e); }
  }

  lemma NoNotice(s: State, e: Event)
    requires |Step(s, e).notices| <= |s.notices|
    ensures Step(s, e).notices == s.notices
  {
  }

  /** Once the event that cancels a cycle is committed, the cycle is never told. */
  lemma {:induction false} CancelledStaysSilent(s: State, events: seq<Event>, more: seq<Event>, c: CycleId)
    requires Initial(s)
    requires c in Run(s, events).cancelled
    ensures c in Run(s, events + more).cancelled
    ensures Silent(Run(s, events).notices, Run(s, events + more).notices, c)
  {
    if more == [] {
      assert events + more == events;
    } else {
      var front, last := more[..|more| - 1], more[|more| - 1];
      CancelledStaysSilent(s, events, front, c);
      RunKeepsInv(s, events + front);
      CancelledStep(Run(s, events + front), s.nextCycle, last, c);
      assert (events + more)[..|events + more| - 1] == events + front;
      SilentOn(Run(s, events).notices, Run(s, events + front).notices, Run(s, events + more).notices, c);
    }
  }

  // ---------- a cycle that is told twice ----------

  /** A session that is thinking, before it has any cycle. */
  const BUSY: State := State(0, Disk(Thinking, None), 1, None, false, Free, [], {}, {})

  // It becomes idle, with the clock jumping between the two readings; its cycle is told, taken
  // for one of an earlier version after a restart, and told again.
  const REST: seq<Event> := [Record(Some(Idle), false, LOOK_ALIKE), Commit, Saved]
  const TELL: seq<Event> := [Emit(1), Probed(true), Commit, Saved, Notified]
  const RESTART: seq<Event> := [Crash, Restore, Commit, Saved]

  lemma RunLast(s: State, events: seq<Event>, last: Event)
    ensures Run(s, events + [last]) == Step(Run(s, events), last)
  {
    assert (events + [last])[..|events|] == events;
  }

  lemma {:induction false} RunOn(s: State, events: seq<Event>, more: seq<Event>)
    ensures Run(s, events + more) == Run(Run(s, events), more)
  {
    if more == [] {
      assert events + more == events;
    } else {
      RunOn(s, events, more[..|more| - 1]);
      assert (events + more)[..|events + more| - 1] == events + more[..|more| - 1];
    }
  }

  lemma RunTwo(s: State, a: Event, b: Event)
    ensures Run(s, [a, b]) == Step(Step(s, a), b)
  {
    assert [a, b] == [] + [a] + [b];
    RunLast(s, [], a);
    RunLast(s, [] + [a], b);
  }

  lemma RunThree(s: State, a: Event, b: Event, c: Event)
    ensures Run(s, [a, b, c]) == Step(Step(Step(s, a), b), c)
  {
    assert [a, b, c] == [a, b] + [c];
    RunTwo(s, a, b);
    RunLast(s, [a, b], c);
  }

  lemma RunFour(s: State, a: Event, b: Event, c: Event, d: Event)
    ensures Run(s, [a, b, c, d]) == Step(Step(Step(Step(s, a), b), c), d)
  {
    assert [a, b, c, d] == [a, b, c] + [d];
    RunThree(s, a, b, c);
    RunLast(s, [a, b, c], d);
  }

  /** Idle with a cycle that looks old, started at 0 and now due. */
  function Waiting(notices: seq<Notice>, dueAt: nat): State {
    State(LEGACY_DELAY, Disk(Idle, Some(Cycle(1, 0, dueAt, None))), 2, Some(1), false, Free, notices, {}, {1})
  }

  lemma Starts()
    ensures Run(BUSY, REST + [Tick(DELAY)]) == Waiting([], LEGACY_DELAY)
  {
    RunThree(BUSY, Record(Some(Idle), false, LOOK_ALIKE), Commit, Saved);
    RunLast(BUSY, REST, Tick(DELAY));
  }

  lemma Tells(notices: seq<Notice>, dueAt: nat)
    requires dueAt <= LEGACY_DELAY
    ensures Run(Waiting(notices, dueAt), TELL)
         == Waiting(notices, dueAt).(
              disk := Disk(Idle, Some(Cycle(1, 0, dueAt, Some(LEGACY_DELAY)))),
              timer := None,
              notices := notices + [Notice(1, LEGACY_DELAY)])
  {
    RunFour(Waiting(notices, dueAt), Emit(1), Probed(true), Commit, Saved);
    RunLast(Waiting(notices, dueAt), [Emit(1), Probed(true), Commit, Saved], Notified);
    assert [Emit(1), Probed(true), Commit, Saved] + [Notified] == TELL;
  }

  lemma Restarts(notices: seq<Notice>)
    ensures Run(Waiting(notices, LEGACY_DELAY).(disk := Disk(Idle, Some(Cycle(1, 0, LEGACY_DELAY, Some(LEGACY_DELAY)))), timer := None),
                RESTART)
         == Waiting(notices, DELAY)
  {
    RunFour(Waiting(notices, LEGACY_DELAY).(disk := Disk(Idle, Some(Cycle(1, 0, LEGACY_DELAY, Some(LEGACY_DELAY)))), timer := None),
            Crash, Restore, Commit, Saved);
  }

  /** That condition is needed: the cycle of this run is told twice. */
  lemma LookAlikeIsToldTwice()
    ensures Initial(BUSY)
    ensures Run(BUSY, REST + [Tick(DELAY)] + TELL + RESTART + TELL).notices == [Notice(1, LEGACY_DELAY), Notice(1, LEGACY_DELAY)]
  {
    var a := REST + [Tick(DELAY)];
    Starts();
    Tells([], LEGACY_DELAY);
    RunOn(BUSY, a, TELL);
    var n := Notice(1, LEGACY_DELAY);
    assert [] + [n] == [n];
    Restarts([n]);
    RunOn(BUSY, a + TELL, RESTART);
    Tells([n], DELAY);
    RunOn(BUSY, a + TELL + RESTART, TELL);
  }

  // ---------- what a cycle comes to when nothing comes between ----------

  predicate Working(a: Activity) {
    a == Thinking || a == ToolUse
  }

  /** What a hook leaves on disk: work, or the end of the session, ends the cycle; falling
      idle after work starts one, due in two minutes; anything else leaves it. */
  lemma {:induction false} HookIsOnDisk(s: State, activity: Option<Activity>, sessionEnd: bool, lag: nat)
    requires s.lock == Free
    ensures var t := Run(s, [Record(activity, sessionEnd, lag), Commit]);
      && t.disk.activity == (if activity.Some? then activity.value else s.disk.activity)
      && (if sessionEnd || (activity.Some? && Working(activity.value)) then
            t.disk.cycle.None? && t.timer.None? && (s.disk.cycle.Some? ==> s.disk.cycle.value.id in t.cancelled)
          else
            && t.timer == s.timer && t.cancelled == s.cancelled
            && t.disk.cycle == if activity == Some(Idle) && Working(s.disk.activity) then
                                 Some(Cycle(s.nextCycle, s.now, s.now + lag + 120_000, None))
                               else s.disk.cycle)
  {
    RunTwo(s, Record(activity, sessionEnd, lag), Commit);
  }

  /** The timer of a cycle that is due: its parent is told, now, and the mark is on disk. */
  lemma {:induction false} DueIsTold(s: State, c: Cycle)
    requires s.lock == Free && !s.stopped && s.disk == Disk(Idle, Some(c)) && c.notifiedAt.None? && s.timer == Some(c.id) && s.now >= c.dueAt
    ensures var t := Run(s, [Emit(c.id), Probed(true), Commit, Saved]);
      && t.notices == s.notices + [Notice(c.id, s.now)]
      && t.disk == Disk(Idle, Some(c.(notifiedAt := Some(s.now))))
    ensures var t := Run(s, [Emit(c.id), Probed(true), Commit, Saved] + [Notified]);
      t == s.(timer := None, notices := s.notices + [Notice(c.id, s.now)], disk := Disk(Idle, Some(c.(notifiedAt := Some(s.now)))))
  {
    RunFour(s, Emit(c.id), Probed(true), Commit, Saved);
    RunLast(s, [Emit(c.id), Probed(true), Commit, Saved], Notified);
    assert s.cancelled + {} == s.cancelled;
  }

  /** A session that falls idle and stays so is told about after two minutes, not before. */
  lemma {:induction false} IdleIsTold(s: State, lag: nat, wait: nat)
    requires s.lock == Free && !s.stopped && s.timer.None? && Working(s.disk.activity) && wait >= 120_000
    ensures var idle := Run(s, [Record(Some(Idle), false, lag), Commit, Saved]);
      var t := Run(Step(idle, Tick(wait)), [Emit(s.nextCycle), Probed(true), Commit, Saved]);
      && idle.notices == s.notices
      && t.notices == s.notices + [Notice(s.nextCycle, s.now + lag + wait)]
  {
    RunThree(s, Record(Some(Idle), false, lag), Commit, Saved);
    var idle := Run(s, [Record(Some(Idle), false, lag), Commit, Saved]);
    DueIsTold(Step(idle, Tick(wait)), idle.disk.cycle.value);
  }

  /** A timer that comes early is set again. */
  lemma {:induction false} EarlyIsSetAgain(s: State, c: Cycle)
    requires s.lock == Free && !s.stopped && s.disk == Disk(Idle, Some(c)) && c.notifiedAt.None? && s.timer == Some(c.id) && s.now < c.dueAt
    ensures Run(s, [Emit(c.id), Probed(true)]) == s
  {
    RunTwo(s, Emit(c.id), Probed(true));
  }

  /** A session that is found gone loses its cycle, and nobody is told. */
  lemma {:induction false} GoneIsForgotten(s: State, c: Cycle)
    requires s.lock == Free && !s.stopped && s.disk == Disk(Idle, Some(c)) && c.notifiedAt.None? && s.timer == Some(c.id)
    ensures var t := Run(s, [Emit(c.id), Probed(false), Commit, Saved]);
      t == s.(timer := None, disk := Disk(Idle, None), cancelled := s.cancelled + {c.id})
  {
    RunFour(s, Emit(c.id), Probed(false), Commit, Saved);
  }

  /** Cancelling ends the cycle. */
  lemma {:induction false} CancelForgets(s: State)
    requires s.lock == Free
    ensures var t := Run(s, [Cancelling, Cancel, Commit, Saved]);
      && t.disk == s.disk.(cycle := None) && t.timer.None? && t.lock == Free && t.notices == s.notices
      && (s.disk.cycle.Some? ==> s.disk.cycle.value.id in t.cancelled)
  {
    RunFour(s, Cancelling, Cancel, Commit, Saved);
  }

  /** After a crash, a cycle of this version that was not told yet gets its timer back. */
  lemma {:induction false} RestartGoesOn(s: State, c: Cycle)
    requires s.disk == Disk(Idle, Some(c)) && c.notifiedAt.None? && !IsLegacy(c)
    ensures Run(s, [Crash, Restore]) == s.(timer := Some(c.id), stopped := false, lock := Free)
  {
    RunTwo(s, Crash, Restore);
  }

  /** One that was told stays told, and when notifications are stopped no timer is set. */
  lemma {:induction false} RestartTellsNobody(s: State, c: Cycle)
    requires s.lock == Free && s.disk.cycle == Some(c) && !IsLegacy(c) && (c.notifiedAt.Some? || s.stopped || s.disk.activity != Idle)
    ensures Run(s, [Restore]) == s
  {
    assert [Restore] == [] + [Restore];
    RunLast(s, [], Restore);
    RestoreLeaves(s, c);
  }

  lemma {:induction false} RestoreLeaves(s: State, c: Cycle)
    requires s.lock == Free && s.disk.cycle == Some(c) && !IsLegacy(c) && (c.notifiedAt.Some? || s.stopped || s.disk.activity != Idle)
    ensures Step(s, Restore) == s
  {
  }

  /** A crash forgets the timer and whatever was under way; what is on disk stays. */
  lemma {:induction false} CrashForgets(s: State)
    ensures Run(s, [Crash]) == s.(timer := None, stopped := false, lock := Free)
  {
    assert [Crash] == [] + [Crash];
    RunLast(s, [], Crash);
  }

  /** A cycle of an earlier version is due two minutes after its start instead of ten, told
      or not, and gets its timer. */
  lemma {:induction false} LegacyIsShortened(s: State, c: Cycle)
    requires s.disk == Disk(Idle, Some(c)) && c.dueAt == c.startedAt + 600_000
    ensures var t := Run(s, [Crash, Restore, Commit, Saved]);
      && t.disk == Disk(Idle, Some(Cycle(c.id, c.startedAt, c.startedAt + 120_000, None)))
      && t.timer == Some(c.id) && t.lock == Free && t.notices == s.notices
  {
    RunFour(s, Crash, Restore, Commit, Saved);
  }

  /** A save that fails frees the lock and leaves the disk; a notice that could not be marked
      is not given, and its timer is gone. */
  lemma {:induction false} FailedSaveFrees(s: State)
    requires s.lock.Saving?
    ensures Step(s, SaveFailed) == s.(lock := Free,
              timer := if s.lock.purpose.ForNotice? && s.timer == Some(s.lock.purpose.cycle) then None else s.timer)
  {
  }

  /** A hook event that does not end the cycle keeps a timer that is set, and sets one for an
      idle session's cycle that was not told if none is. */
  lemma {:induction false} HookKeepsTimer(s: State, activity: Option<Activity>, lag: nat)
    requires s.lock == Free && !s.stopped && !(activity.Some? && Working(activity.value))
    ensures var t := Run(s, [Record(activity, false, lag), Commit, Saved]);
      && t.lock == Free && t.notices == s.notices
      && t.timer ==
           if s.timer.None? && t.disk.activity == Idle && t.disk.cycle.Some? && t.disk.cycle.value.notifiedAt.None?
           then Some(t.disk.cycle.value.id) else s.timer
  {
    RunThree(s, Record(activity, false, lag), Commit, Saved);
  }

  /** Once notifications are stopped, nobody is told until the bridge starts again. */
  lemma {:induction false} StoppedIsSilent(s: State, events: seq<Event>, more: seq<Event>)
    requires Crash !in more
    ensures var t, u := Run(s, events + [Stop]), Run(s, events + [Stop] + more); u.stopped && u.timer.None? && u.notices == t.notices
  {
    if more == [] {
      assert events + [Stop] + more == events + [Stop];
      RunLast(s, events, Stop);
    } else {
      var front, last := more[..|more| - 1], more[|more| - 1];
      assert last in more;
      StoppedIsSilent(s, events, front);
      assert events + [Stop] + more == (events + [Stop] + front) + [last];
      RunLast(s, events + [Stop] + front, last);
      StoppedStep(Run(s, events + [Stop] + front), last);
    }
  }

  lemma {:induction false} StoppedStep(s: State, e: Event)
    requires s.stopped && s.timer.None? && e != Crash
    ensures Step(s, e).stopped && Step(s, e).timer.None? && Step(s, e).notices == s.notices
  {
  }
}

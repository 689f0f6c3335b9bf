/** The setup lock: a directory that is renamed into place with its owner's marker
    already inside, and reclaimed from an owner that is provably dead. */
module SetupLock {

  /** One call of acquireSetupLock: a process id together with its random token. */
  type Owner = nat

  /** A file in the lock directory: an intact owner marker, or anything else. */
  datatype Entry = Marker(owner: Owner) | Foreign(name: string)

  datatype Lock = Absent | NotDirectory | Directory(entries: set<Entry>)

  const ATTEMPTS := 3

  // ---------- the file-system calls, each atomic ----------

  /** rename(candidate, lock): a directory replaces nothing or an empty directory. */
  predicate RenameWorks(lock: Lock) {
    lock == Absent || lock == Directory({})
  }

  function Unlink(lock: Lock, entry: Entry): Lock {
    if lock.Directory? then Directory(lock.entries - {entry}) else lock
  }

  function Rmdir(lock: Lock): Lock {
    if lock == Directory({}) then Absent else lock
  }

  datatype Verdict = Retry | Unknown | OwnedBy(owner: Owner)

  /** What one reading of the directory listing says about the owner. */
  function Listing(entries: set<Entry>): (v: Verdict)
    ensures v == Retry <==> entries == {}
    ensures v.OwnedBy? <==> exists q :: entries == {Marker(q)}
    ensures v.OwnedBy? ==> entries == {Marker(v.owner)}
  {
    if entries == {} then Retry
    else if exists q <- Owners(entries) :: entries == {Marker(q)} then
      var q :| q in Owners(entries) && entries == {Marker(q)};
      assert forall r :: entries == {Marker(r)} ==> Marker(r) in {Marker(q)};
      OwnedBy(q)
    else
      assert forall q :: entries == {Marker(q)} ==> Marker(q) in entries && q in Owners(entries);
      Unknown
  }

  function Owners(entries: set<Entry>): set<Owner> {
    set e | e in entries && e.Marker? :: e.owner
  }

  // ---------- the protocol, interleaved ----------

  datatype Counter =
    | Renaming(attempt: nat)
    | Listed(attempt: nat)
    | Reading(attempt: nat, seen: Owner)
    | Probing(attempt: nat, seen: Owner)
    | Unlinking(attempt: nat, seen: Owner)
    | Removing(attempt: nat)
    | Held
    | Releasing
    | Failing
    | Finished

  datatype State = State(lock: Lock, pending: set<Owner>, at: map<Owner, Counter>, crashed: set<Owner>)

  datatype Event =
    | Start(p: Owner)
    | Next(p: Owner, saysDead: bool)
    | Crash(p: Owner)

  predicate Live(s: State, p: Owner) {
    p in s.at && p !in s.crashed
  }

  /** The end of one loop iteration that did not take the lock. */
  function Again(attempt: nat): Counter {
    if attempt + 1 < ATTEMPTS then Renaming(attempt + 1) else Failing
  }

  /** One file-system call, or one probe, of process p. `saysDead` is the answer of
      kill(pid, 0); it can be "no such process" only for an owner that has crashed
      (the pid of a dead owner may have been reused, so the converse need not hold). */
  function Advance(s: State, p: Owner, saysDead: bool): State
    requires Live(s, p)
  {
    match s.at[p]
    case Renaming(n) =>
      if RenameWorks(s.lock) then
        s.(lock := Directory({Marker(p)}), pending := s.pending - {p}, at := s.at[p := Held])
      else if s.lock.NotDirectory? then s.(at := s.at[p := Failing])
      else s.(at := s.at[p := Listed(n)])
    case Listed(n) =>
      if !s.lock.Directory? then s.(at := s.at[p := Failing])
      else (match Listing(s.lock.entries)
        case Retry => s.(at := s.at[p := Again(n)])
        case Unknown => s.(at := s.at[p := Failing])
        case OwnedBy(q) => s.(at := s.at[p := Reading(n, q)]))
    case Reading(n, q) =>
      if s.lock.Directory? && Marker(q) in s.lock.entries then s.(at := s.at[p := Probing(n, q)])
      else s.(at := s.at[p := Failing])
    case Probing(n, q) =>
      if saysDead && q in s.crashed then s.(at := s.at[p := Unlinking(n, q)])
      else s.(at := s.at[p := Failing])
    case Unlinking(n, q) => s.(lock := Unlink(s.lock, Marker(q)), at := s.at[p := Removing(n)])
    case Removing(n) => s.(lock := Rmdir(s.lock), at := s.at[p := Again(n)])
    case Held => s.(lock := Unlink(s.lock, Marker(p)), at := s.at[p := Releasing])
    case Releasing => s.(lock := Rmdir(s.lock), at := s.at[p := Finished])
    case Failing => s.(pending := s.pending - {p}, at := s.at[p := Finished])
    case Finished => s
  }

  function Step(s: State, e: Event): State {
    match e
    case Start(p) =>
      if p in s.at || p in s.crashed then s
      else s.(pending := s.pending + {p}, at := s.at[p := Renaming(0)])
    case Next(p, saysDead) => if Live(s, p) then Advance(s, p, saysDead) else s
    case Crash(p) => if p in s.at then s.(crashed := s.crashed + {p}) else s
  }

  function Run(s: State, events: seq<Event>): State {
    if events == [] then s else Step(Run(s, events[..|events| - 1]), events[|events| - 1])
  }

  /** Any lock directory left by earlier processes, all of them gone. */
  ghost predicate Initial(s: State) {
    && s.at == map[] && s.pending == {}
    && (s.lock.Directory? ==> Owners(s.lock.entries) <= s.crashed)
  }

  ghost predicate Holds(s: State, p: Owner) {
    Live(s, p) && s.at[p] == Held
  }

  ghost predicate Inv(s: State) {
    && (forall p :: Holds(s, p) ==> s.lock == Directory({Marker(p)}))
    && (forall p <- s.at :: s.at[p].Unlinking? ==> s.at[p].seen in s.crashed)
    && (forall p <- s.at :: s.at[p] in {Held, Releasing, Finished} ==> p !in s.pending)
    && s.pending <= s.at.Keys
  }

  lemma StepKeepsInv(s: State, e: Event)
    requires Inv(s)
    ensures Inv(Step(s, e))
  {
    var t := Step(s, e);
    forall p | Holds(t, p) ensures t.lock == Directory({Marker(p)}) {
      if Holds(s, p) {
        assert s.lock == Directory({Marker(p)});
        if e.Next? && Live(s, e.p) && s.at[e.p].Unlinking? {
          assert s.at[e.p].seen in s.crashed;
        }
      }
    }
  }

  lemma {:induction false} RunKeepsInv(s: State, events: seq<Event>)
    requires Initial(s)
    ensures Inv(Run(s, events))
  {
    if events != [] {
      RunKeepsInv(s, events[..|events| - 1]);
      StepKeepsInv(Run(s, events[..|events| - 1]), events[|events| - 1]);
    }
  }

  /** Mutual exclusion, whatever the interleaving and whoever crashes wherever. */
  lemma {:induction false} AtMostOneHolder(s: State, events: seq<Event>, p: Owner, q: Owner)
    requires Initial(s)
    requires Holds(Run(s, events), p) && Holds(Run(s, events), q)
    ensures p == q
    ensures Run(s, events).lock == Directory({Marker(p)})
  {
    RunKeepsInv(s, events);
    assert Marker(q) in {Marker(p)};
  }

  /** A live owner keeps the lock until its own release: no step of another process,
      reclaiming or releasing, touches its marker. */
  lemma {:induction false} OnlyReleaseTakesTheMarker(s: State, events: seq<Event>, p: Owner, e: Event)
    requires Initial(s)
    requires Holds(Run(s, events), p)
    requires e.p != p
    ensures Holds(Run(s, events + [e]), p)
    ensures Run(s, events + [e]).lock == Directory({Marker(p)})
  {
    RunKeepsInv(s, events);
    assert (events + [e])[..|events|] == events;
    StepKeepsInv(Run(s, events), e);
  }

  /** A call that ended, either way, has left no pending directory behind. */
  lemma {:induction false} NoPendingLeft(s: State, events: seq<Event>, p: Owner)
    requires Initial(s)
    requires var t := Run(s, events); p in t.at && t.at[p] in {Held, Finished}
    ensures p !in Run(s, events).pending
  {
    RunKeepsInv(s, events);
  }

  /** Foreign files are never removed, and while one is there nobody gets the lock. */
  lemma {:induction false} ForeignPreserved(s: State, events: seq<Event>, name: string)
    requires Initial(s)
    requires s.lock.Directory? && Foreign(name) in s.lock.entries
    ensures Run(s, events).lock.Directory? && Foreign(name) in Run(s, events).lock.entries
    ensures forall p :: !Holds(Run(s, events), p)
  {
    RunKeepsInv(s, events);
    if events != [] {
      ForeignPreserved(s, events[..|events| - 1], name);
      RunKeepsInv(s, events[..|events| - 1]);
    }
  }

  // ---------- what a call comes to, from any point of any run ----------

  lemma {:induction false} RunNext(s: State, events: seq<Event>, e: Event)
    ensures Run(s, events + [e]) == Step(Run(s, events), e)
  {
    assert (events + [e])[..|events|] == events;
  }

  /** p alone: n of its steps in a row. */
  function Alone(p: Owner, saysDead: bool, n: nat): seq<Event> {
    seq(n, _ => Next(p, saysDead))
  }

  lemma {:induction false} AloneNext(s: State, p: Owner, saysDead: bool, n: nat)
    ensures Run(s, Alone(p, saysDead, n + 1)) == Step(Run(s, Alone(p, saysDead, n)), Next(p, saysDead))
  {
    assert Alone(p, saysDead, n + 1) == Alone(p, saysDead, n) + [Next(p, saysDead)];
    RunNext(s, Alone(p, saysDead, n), Next(p, saysDead));
  }

  /** A process that nobody knows yet. */
  predicate New(s: State, p: Owner) {
    p !in s.at && p !in s.crashed
  }

  /** A state that differs in the lock and in where p is. */
  function With(s: State, p: Owner, lock: Lock, c: Counter): State {
    s.(lock := lock, at := s.at[p := c])
  }

  /** From one such state to another, by a step of p that neither takes the lock nor ends. */
  lemma {:induction false} Goes(s: State, p: Owner, saysDead: bool, n: nat, lock: Lock, c: Counter, lock': Lock, c': Counter)
    requires p !in s.crashed && !c.Failing? && c' != Held
    requires Run(s, Alone(p, saysDead, n)) == With(s, p, lock, c)
    requires var t := Advance(With(s, p, lock, c), p, saysDead); t.lock == lock' && t.at[p] == c'
    ensures Run(s, Alone(p, saysDead, n + 1)) == With(s, p, lock', c')
  {
    AloneNext(s, p, saysDead, n);
    var w := With(s, p, lock, c);
    var t := Advance(w, p, saysDead);
    assert t.at == w.at[p := c'] && t.pending == s.pending && t.crashed == s.crashed;
    assert s.at[p := c][p := c'] == s.at[p := c'];
  }

  /** A call begins with its candidate directory; a crash leaves everything as it is. */
  lemma {:induction false} BeginsAndCrashes(s: State, p: Owner)
    ensures New(s, p) ==> Step(s, Start(p)) == s.(pending := s.pending + {p}, at := s.at[p := Renaming(0)])
    ensures p in s.at ==> Step(s, Crash(p)) == s.(crashed := s.crashed + {p})
  {
  }

  /** A free lock goes to the first that renames its directory. */
  lemma {:induction false} FreeLockIsTaken(s: State, p: Owner, saysDead: bool)
    requires New(s, p) && (s.lock == Absent || s.lock == Directory({}))
    ensures var t := Run(Step(s, Start(p)), Alone(p, saysDead, 1));
      t == s.(lock := Directory({Marker(p)}), pending := s.pending - {p}, at := s.at[p := Held])
  {
    AloneNext(Step(s, Start(p)), p, saysDead, 0);
    assert (s.pending + {p}) - {p} == s.pending - {p};
    assert s.at[p := Renaming(0)][p := Held] == s.at[p := Held];
  }

  /** The lock of a dead owner is reclaimed and taken. */
  lemma {:induction false} DeadOwnerIsReplaced(s: State, p: Owner, q: Owner)
    requires New(s, p) && q in s.crashed && s.lock == Directory({Marker(q)})
    ensures var t := Run(Step(s, Start(p)), Alone(p, true, 7));
      t == s.(lock := Directory({Marker(p)}), pending := s.pending - {p}, at := s.at[p := Held])
  {
    var a, owned := Step(s, Start(p)), s.lock;
    assert Marker(q) in {Marker(q)};
    assert Run(a, Alone(p, true, 0)) == With(a, p, owned, Renaming(0));
    Goes(a, p, true, 0, owned, Renaming(0), owned, Listed(0));
    Goes(a, p, true, 1, owned, Listed(0), owned, Reading(0, q));
    Goes(a, p, true, 2, owned, Reading(0, q), owned, Probing(0, q));
    ProbedIsReclaimed(a, p, q);
    ReclaimedIsTaken(s, p);
  }

  lemma {:induction false} ProbedIsReclaimed(a: State, p: Owner, q: Owner)
    requires p !in a.crashed && q in a.crashed && Run(a, Alone(p, true, 3)) == With(a, p, Directory({Marker(q)}), Probing(0, q))
    ensures Run(a, Alone(p, true, 5)) == With(a, p, Directory({}), Removing(0))
  {
    assert {Marker(q)} - {Marker(q)} == {};
    Goes(a, p, true, 3, Directory({Marker(q)}), Probing(0, q), Directory({Marker(q)}), Unlinking(0, q));
    Goes(a, p, true, 4, Directory({Marker(q)}), Unlinking(0, q), Directory({}), Removing(0));
  }

  lemma {:induction false} ReclaimedIsTaken(s: State, p: Owner)
    requires New(s, p)
    requires Run(Step(s, Start(p)), Alone(p, true, 5)) == With(Step(s, Start(p)), p, Directory({}), Removing(0))
    ensures Run(Step(s, Start(p)), Alone(p, true, 7))
      == s.(lock := Directory({Marker(p)}), pending := s.pending - {p}, at := s.at[p := Held])
  {
    var a := Step(s, Start(p));
    Goes(a, p, true, 5, Directory({}), Removing(0), Absent, Renaming(1));
    AloneNext(a, p, true, 6);
    assert (s.pending + {p}) - {p} == s.pending - {p};
    assert a.at[p := Renaming(1)][p := Held] == s.at[p := Held];
  }

  /** Any other lock, of an owner that lives or that the probe does not find dead, or with
      anything else in it, is left as it is, and the call ends without a trace. */
  lemma {:induction false} OtherLocksAreLeft(s: State, p: Owner, saysDead: bool)
    requires New(s, p) && s.lock != Absent && s.lock != Directory({})
    requires forall q <- s.crashed :: saysDead ==> s.lock != Directory({Marker(q)})
    ensures var t := Run(Step(s, Start(p)), Alone(p, saysDead, 6));
      t == s.(pending := s.pending - {p}, at := s.at[p := Finished])
  {
    var a, lock := Step(s, Start(p)), s.lock;
    assert Run(a, Alone(p, saysDead, 0)) == With(a, p, lock, Renaming(0));
    if lock.NotDirectory? {
      Goes(a, p, saysDead, 0, lock, Renaming(0), lock, Failing);
      FailingEnds(s, p, saysDead, 1);
    } else {
      Goes(a, p, saysDead, 0, lock, Renaming(0), lock, Listed(0));
      match Listing(lock.entries) {
        case OwnedBy(q) =>
          assert Marker(q) in lock.entries;
          Goes(a, p, saysDead, 1, lock, Listed(0), lock, Reading(0, q));
          Goes(a, p, saysDead, 2, lock, Reading(0, q), lock, Probing(0, q));
          Goes(a, p, saysDead, 3, lock, Probing(0, q), lock, Failing);
          FailingEnds(s, p, saysDead, 4);
        case Unknown =>
          Goes(a, p, saysDead, 1, lock, Listed(0), lock, Failing);
          FailingEnds(s, p, saysDead, 2);
      }
    }
  }

  lemma {:induction false} FailingEnds(s: State, p: Owner, saysDead: bool, n: nat)
    requires New(s, p) && n < 6
    requires Run(Step(s, Start(p)), Alone(p, saysDead, n)) == With(Step(s, Start(p)), p, s.lock, Failing)
    ensures Run(Step(s, Start(p)), Alone(p, saysDead, 6)) == s.(pending := s.pending - {p}, at := s.at[p := Finished])
  {
    var a, end := Step(s, Start(p)), s.(pending := s.pending - {p}, at := s.at[p := Finished]);
    AloneNext(a, p, saysDead, n);
    assert (s.pending + {p}) - {p} == s.pending - {p};
    assert a.at[p := Failing][p := Finished] == s.at[p := Finished];
    assert Run(a, Alone(p, saysDead, n + 1)) == end;
    FinishedStays(a, p, saysDead, n + 1, 6, end);
  }

  lemma {:induction false} FinishedStays(s: State, p: Owner, saysDead: bool, n: nat, m: nat, end: State)
    requires n <= m && Run(s, Alone(p, saysDead, n)) == end && p in end.at && end.at[p] == Finished
    ensures Run(s, Alone(p, saysDead, m)) == end
    decreases m - n
  {
    if n < m {
      AloneNext(s, p, saysDead, n);
      FinishedStays(s, p, saysDead, n + 1, m, end);
    }
  }

  /** A holder that releases undisturbed leaves no lock behind. */
  lemma {:induction false} ReleaseFrees(s: State, p: Owner, saysDead: bool)
    requires Holds(s, p) && s.lock == Directory({Marker(p)})
    ensures Run(s, Alone(p, saysDead, 2)) == s.(lock := Absent, at := s.at[p := Finished])
  {
    AloneNext(s, p, saysDead, 0);
    AloneNext(s, p, saysDead, 1);
    assert {Marker(p)} - {Marker(p)} == {};
    assert s.at[p := Releasing][p := Finished] == s.at[p := Finished];
  }

  /** Whoever finds the directory empty, its owner just releasing, tries again, three times
      in all, and then gives up without a trace. */
  lemma {:induction false} EmptyIsTriedAgain(s: State, p: Owner, attempt: nat, saysDead: bool)
    requires Live(s, p) && s.at[p] == Listed(attempt) && s.lock == Directory({})
    ensures Run(s, Alone(p, saysDead, 2)) ==
      if attempt < 2 then s.(lock := Directory({Marker(p)}), pending := s.pending - {p}, at := s.at[p := Held])
      else s.(pending := s.pending - {p}, at := s.at[p := Finished])
  {
    AloneNext(s, p, saysDead, 0);
    AloneNext(s, p, saysDead, 1);
    if attempt < 2 {
      assert s.at[p := Renaming(attempt + 1)][p := Held] == s.at[p := Held];
    } else {
      assert s.at[p := Failing][p := Finished] == s.at[p := Finished];
    }
  }

  // ---------- one call with no other setup running ----------

  datatype Result = Acquired | SomeoneElse(owner: Owner) | UnknownOwner | Changed

  /** The part of the home directory the lock lives in. */
  class SetupDirectory {
    var lock: Lock
    var pending: set<Owner>

    constructor (lock: Lock)
      ensures this.lock == lock && pending == {}
    {
      this.lock := lock;
      pending := {};
    }

    /** acquireSetupLock, undisturbed. The answer depends only on what was there. */
    method Acquire(me: Owner, dead: set<Owner>) returns (r: Result)
      requires me !in pending
      modifies this
      ensures pending == old(pending)
      ensures r.Acquired? <==>
                (old(lock) == Absent || old(lock) == Directory({})
                 || exists q <- dead :: old(lock) == Directory({Marker(q)}))
      ensures r.Acquired? ==> lock == Directory({Marker(me)})
      ensures !r.Acquired? ==> lock == old(lock)
      ensures r.SomeoneElse? <==> exists q :: q !in dead && old(lock) == Directory({Marker(q)})
      ensures r.SomeoneElse? ==> old(lock) == Directory({Marker(r.owner)})
      ensures r != Changed
    {
      pending := pending + {me};
      var acquired := false;
      r := Changed;
      var attempt := 0;
      while attempt < ATTEMPTS && !acquired && r == Changed
        invariant 0 <= attempt <= ATTEMPTS
        invariant pending == if acquired then old(pending) else old(pending) + {me}
        invariant acquired <==> r == Acquired
        invariant acquired ==> lock == Directory({Marker(me)})
        invariant acquired ==> old(lock) == Absent || old(lock) == Directory({})
                                 || exists q <- dead :: old(lock) == Directory({Marker(q)})
        invariant !acquired && r != Changed ==> lock == old(lock) && lock != Absent && lock != Directory({})
        invariant r == UnknownOwner ==> forall q :: lock != Directory({Marker(q)})
        invariant r.SomeoneElse? ==> r.owner !in dead && lock == Directory({Marker(r.owner)})
        invariant r == Changed && attempt == 0 ==> lock == old(lock)
        invariant r == Changed && attempt == 1 ==> lock == Absent && exists q <- dead :: old(lock) == Directory({Marker(q)})
        invariant r == Changed ==> attempt <= 1
      {
        if RenameWorks(lock) {
          lock := Directory({Marker(me)});
          pending := pending - {me};
          acquired := true;
          r := Acquired;
        } else if lock.NotDirectory? {
          r := UnknownOwner;
        } else {
          match Listing(lock.entries) {
            case Retry =>
            case Unknown => r := UnknownOwner;
            case OwnedBy(q) =>
              if q !in dead {
                r := SomeoneElse(q);
              } else {
                lock := Unlink(lock, Marker(q));
                lock := Rmdir(lock);
              }
          }
        }
        attempt := attempt + 1;
      }
      if !acquired { pending := pending - {me}; }
      if r.SomeoneElse? {
        assert Marker(r.owner) in old(lock).entries;
      }
      assert forall q, q' :: Directory({Marker(q)}) == Directory({Marker(q')}) ==> Marker(q) in {Marker(q')};
    }

    /** The closure returned to the caller. */
    method Release(me: Owner)
      modifies this`lock
      ensures lock == Rmdir(Unlink(old(lock), Marker(me)))
      ensures old(lock) == Directory({Marker(me)}) ==> lock == Absent
      ensures lock != old(lock) ==> old(lock) == Directory({}) || (old(lock).Directory? && Marker(me) in old(lock).entries)
      ensures old(lock).Directory? && Marker(me) !in old(lock).entries && old(lock).entries != {} ==> lock == old(lock)
    {
      lock := Unlink(lock, Marker(me));
      lock := Rmdir(lock);
    }
  }
}

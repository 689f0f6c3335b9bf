/** What the ends of launches are reported as. */
module ProcessReports {
  import opened Results
  import opened ProcessRunner

  /** The report an exit calls for, in terms of the launch as it was before: its own client is
      attached and the launch was not told to stop or to detach. A direct process is complete
      without a code or with code 0. The client of a tmux session that is gone is complete with
      code 0 alone; one whose session is still there reports only that it cannot be attached
      again. */
  predicate ExitCallsFor(s: State, e: Event, m: Emission)
    requires e.Exit?
  {
    && e.pty in s.clients && !s.clients[e.pty].exited && e.next !in s.clients
    && m.generation == s.clients[e.pty].generation && m.session == s.clients[e.pty].session
    && Attached(s, m.session, e.pty) && Current(s, m.session, m.generation) && !Marked(s, m.generation)
    && if s.clients[e.pty].runtime == Direct then (m.outcome == Complete <==> e.code.None? || e.code == Some(0))
       else if e.hasTmux then !e.spawns && m.outcome == Failed
       else (m.outcome == Complete <==> e.code == Some(0))
  }

  /** The report an event calls for: the end of the launch's own process, or a creation or a
      spawn that failed. */
  predicate CallsFor(s: State, e: Event, m: Emission) {
    match e
    case Exit(_, _, _, _, _) => ExitCallsFor(s, e, m)
    case Created(g, ok, p, spawns) =>
      && g in s.creating && g in s.intents && p !in s.clients && (!ok || !spawns)
      && m == Emission(g, s.intents[g].session, Failed)
      && Current(s, m.session, g) && !s.intents[g].stopping
    case Run(session, g, p, tmux, spawns) =>
      g !in s.intents && p !in s.clients && !tmux && !spawns && m == Emission(g, session, Failed)
    case Reattach(session, g, p, hasTmux, spawns) =>
      && session !in s.active && hasTmux && g !in s.intents && p !in s.clients && !spawns
      && m == Emission(g, session, Failed)
    case _ => false
  }

  /** What an event adds is what it calls for, if anything. */
  ghost predicate ReportsFit(s: State, e: Event) {
    var t := Step(s, e);
    && (forall m :: CallsFor(s, e, m) ==> t.emitted == s.emitted + [m])
    && (t.emitted == s.emitted || exists m :: CallsFor(s, e, m) && t.emitted == s.emitted + [m])
  }

  lemma {:induction false} ReportsFitIf(s: State, e: Event, m: Emission)
    requires CallsFor(s, e, m) && Step(s, e).emitted == s.emitted + [m]
    requires forall o :: CallsFor(s, e, o) ==> o == m
    ensures ReportsFit(s, e)
  {
  }

  /** No event calls for two reports. */
  lemma {:induction false} CallsForOne(s: State, e: Event, m: Emission, o: Emission)
    requires CallsFor(s, e, m) && CallsFor(s, e, o)
    ensures m == o
  {
  }

  /** An exit counts for an unmarked launch exactly if its client is attached. */
  lemma {:induction false} CountsIfAttached(s: State, p: Pty)
    requires Inv(s) && p in s.clients && !Marked(s, s.clients[p].generation)
    ensures var c := s.clients[p]; var t := s.(clients := s.clients[p := c.(exited := true)]);
      Counts(t, c, p) <==> Attached(s, c.session, p) && Current(s, c.session, c.generation)
  {
    assert ClientFits(s, p);
  }

  lemma {:induction false} ExitReportsFit(s: State, e: Event)
    requires Inv(s) && e.Exit? && e.pty in s.clients && !s.clients[e.pty].exited && e.next !in s.clients
    ensures ReportsFit(s, e)
  {
    var c := s.clients[e.pty];
    assert ClientFits(s, e.pty);
    if Marked(s, c.generation) {
      MarkedExitIsSilent(s, e);
    } else {
      CountsIfAttached(s, e.pty);
      var u := s.(clients := s.clients[e.pty := c.(exited := true)], active := s.active - {c.session}, runtimes := s.runtimes - {c.session});
      if Attached(s, c.session, e.pty) && Current(s, c.session, c.generation) {
        assert Step(s, e) == if c.runtime == Tmux then TmuxExit(u, c, e.hasTmux, e.code, e.next, e.spawns) else DirectExit(u, c, e.code);
        UnmarkedExitReports(s, e, u);
      } else {
        assert Step(s, e).emitted == s.emitted;
        assert forall m :: !CallsFor(s, e, m);
      }
    }
  }

  lemma {:induction false} MarkedExitIsSilent(s: State, e: Event)
    requires Inv(s) && e.Exit? && e.pty in s.clients && !s.clients[e.pty].exited && e.next !in s.clients
    requires Marked(s, s.clients[e.pty].generation)
    ensures ReportsFit(s, e)
  {
    assert ClientFits(s, e.pty);
    assert Step(s, e).emitted == s.emitted;
    assert forall m :: !CallsFor(s, e, m);
  }

  lemma {:induction false} UnmarkedExitReports(s: State, e: Event, u: State)
    requires e.Exit? && e.pty in s.clients && !s.clients[e.pty].exited && e.next !in s.clients
    requires var c := s.clients[e.pty];
      && u == s.(clients := u.clients, active := s.active - {c.session}, runtimes := s.runtimes - {c.session})
      && c.generation in s.intents && !Marked(s, c.generation)
      && Attached(s, c.session, e.pty) && Current(s, c.session, c.generation)
      && Step(s, e) == if c.runtime == Tmux then TmuxExit(u, c, e.hasTmux, e.code, e.next, e.spawns) else DirectExit(u, c, e.code)
    ensures ReportsFit(s, e)
  {
    var c := s.clients[e.pty];
    if c.runtime == Tmux && e.hasTmux && e.spawns {
      assert Step(s, e).emitted == s.emitted;
      assert forall m :: !CallsFor(s, e, m);
    } else {
      var complete := if c.runtime == Direct then e.code.None? || e.code == Some(0) else !e.hasTmux && e.code == Some(0);
      var m := Emission(c.generation, c.session, if complete then Complete else Failed);
      assert CallsFor(s, e, m);
      assert Step(s, e).emitted == s.emitted + [m];
      forall o | CallsFor(s, e, o) ensures o == m { CallsForOne(s, e, o, m); }
      ReportsFitIf(s, e, m);
    }
  }

  lemma {:induction false} CreatedReportsFit(s: State, g: Generation, ok: bool, p: Pty, spawns: bool)
    requires Inv(s)
    ensures ReportsFit(s, Created(g, ok, p, spawns))
  {
    var e := Created(g, ok, p, spawns);
    if g in s.creating && g in s.intents && p !in s.clients && (!ok || !spawns) && Current(s, s.intents[g].session, g) && !s.intents[g].stopping {
      var m := Emission(g, s.intents[g].session, Failed);
      assert CallsFor(s, e, m);
      ReportsFitIf(s, e, m);
    } else {
      assert Step(s, e).emitted == s.emitted;
      assert forall m :: !CallsFor(s, e, m);
    }
  }

  lemma {:induction false} StartReportsFit(s: State, e: Event)
    requires e.Run? || e.Reattach?
    ensures ReportsFit(s, e)
  {
    var m := Emission(e.generation, e.session, Failed);
    if CallsFor(s, e, m) {
      ReportsFitIf(s, e, m);
    } else {
      assert Step(s, e).emitted == s.emitted;
      assert forall o :: !CallsFor(s, e, o);
    }
  }

  lemma {:induction false} StepReportsFit(s: State, e: Event)
    requires Inv(s)
    ensures ReportsFit(s, e)
  {
    match e
    case Exit(p, _, _, next, _) =>
      if p in s.clients && !s.clients[p].exited && next !in s.clients {
        ExitReportsFit(s, e);
      } else {
        assert Step(s, e).emitted == s.emitted && forall m :: !CallsFor(s, e, m);
      }
    case Created(g, ok, p, spawns) => CreatedReportsFit(s, g, ok, p, spawns);
    case Run(_, _, _, _, _) => StartReportsFit(s, e);
    case Reattach(_, _, _, _, _) => StartReportsFit(s, e);
    case _ =>
      assert Step(s, e).emitted == s.emitted && forall m :: !CallsFor(s, e, m);
  }

  // ---------- over whole runs ----------

  /** In every run, what an event calls for is reported, and nothing else. */
  lemma {:induction false} EveryEndIsReported(events: seq<Event>, e: Event, m: Emission)
    requires CallsFor(Play(INITIAL, events), e, m)
    ensures Play(INITIAL, events + [e]).emitted == Play(INITIAL, events).emitted + [m]
  {
    PlayKeepsInv(events);
    PlayNext(events, e);
    StepReportsFit(Play(INITIAL, events), e);
  }

  /** Every report of every run was called for by an event of the run. */
  lemma {:induction false} EveryReportIsCalledFor(events: seq<Event>, k: nat) returns (i: nat)
    requires k < |Play(INITIAL, events).emitted|
    ensures i < |events|
    ensures CallsFor(Play(INITIAL, events[..i]), events[i], Play(INITIAL, events).emitted[k])
  {
    assert events != [];
    var front, last := events[..|events| - 1], events[|events| - 1];
    var s := Play(INITIAL, front);
    PlayKeepsInv(front);
    StepReportsFit(s, last);
    if k < |s.emitted| {
      i := EveryReportIsCalledFor(front, k);
      assert front[..i] == events[..i];
    } else {
      i := |events| - 1;
    }
  }

  /** A direct launch, whatever ran before: its exit is reported, as complete exactly without
      a code or with code 0. */
  lemma {:induction false} DirectLaunchIsReported(events: seq<Event>, session: SessionId, g: Generation, p: Pty, hasTmux: bool, code: Option<int>,
                                                  next: Pty, spawns: bool)
    requires var s := Play(INITIAL, events); g !in s.intents && p !in s.clients && next !in s.clients && next != p
    ensures Play(INITIAL, events + [Run(session, g, p, false, true)] + [Exit(p, hasTmux, code, next, spawns)]).emitted
      == Play(INITIAL, events).emitted + [Emission(g, session, if code.None? || code == Some(0) then Complete else Failed)]
  {
    var run, exit := Run(session, g, p, false, true), Exit(p, hasTmux, code, next, spawns);
    PlayNext(events, run);
    EveryEndIsReported(events + [run], exit, Emission(g, session, if code.None? || code == Some(0) then Complete else Failed));
  }

  /** A launch in tmux, whatever ran before: once its session was created, the exit of its
      client with the session gone is reported, as complete exactly with code 0. */
  lemma {:induction false} TmuxLaunchIsReported(events: seq<Event>, session: SessionId, g: Generation, p: Pty, q: Pty, code: Option<int>, next: Pty, spawns: bool)
    requires var s := Play(INITIAL, events); g !in s.intents && p !in s.clients && q !in s.clients && next !in s.clients && next != q
    ensures Play(INITIAL, events + [Run(session, g, p, true, spawns)] + [Created(g, true, q, true)] + [Exit(q, false, code, next, spawns)]).emitted
      == Play(INITIAL, events).emitted + [Emission(g, session, if code == Some(0) then Complete else Failed)]
  {
    var run, created, exit := Run(session, g, p, true, spawns), Created(g, true, q, true), Exit(q, false, code, next, spawns);
    TmuxLaunchAttaches(events, session, g, p, q, spawns);
    EveryEndIsReported(events + [run] + [created], exit, Emission(g, session, if code == Some(0) then Complete else Failed));
  }

  lemma {:induction false} TmuxLaunchAttaches(events: seq<Event>, session: SessionId, g: Generation, p: Pty, q: Pty, spawns: bool)
    requires var s := Play(INITIAL, events); g !in s.intents && p !in s.clients && q !in s.clients
    ensures var s, t := Play(INITIAL, events), Play(INITIAL, events + [Run(session, g, p, true, spawns)] + [Created(g, true, q, true)]);
      && Attached(t, session, q) && Current(t, session, g) && g in t.intents && !Marked(t, g)
      && t.clients == s.clients[q := Client(session, g, Tmux, false)] && t.emitted == s.emitted
  {
    var s := Play(INITIAL, events);
    PlayNext(events, Run(session, g, p, true, spawns));
    PlayNext(events + [Run(session, g, p, true, spawns)], Created(g, true, q, true));
    var t := Step(s, Run(session, g, p, true, spawns));
    assert g in t.creating && t.intents == s.intents[g := Intent(session, false, false, None)] && Current(t, session, g);
    assert t.clients == s.clients && t.emitted == s.emitted;
  }

  /** A client that only lost its tmux session is attached again, and the launch goes on. */
  lemma {:induction false} LostClientIsAttachedAgain(events: seq<Event>, session: SessionId, p: Pty, code: Option<int>, next: Pty)
    requires var s := Play(INITIAL, events);
      && Attached(s, session, p) && next !in s.clients && InTmux(s, session) && p in s.clients && !s.clients[p].exited
      && !Marked(s, s.clients[p].generation)
    ensures var s, t := Play(INITIAL, events), Play(INITIAL, events + [Exit(p, true, code, next, true)]);
      && Attached(t, session, next) && t.generations == s.generations && t.emitted == s.emitted
      && t.clients[next] == Client(session, s.clients[p].generation, Tmux, false)
  {
    PlayKeepsInv(events);
    var s := Play(INITIAL, events);
    assert ActiveFits(s, session) && ClientFits(s, p);
    PlayNext(events, Exit(p, true, code, next, true));
    CountsIfAttached(s, p);
  }

  /** After a stop, or after leaving the bridge, the launch that was attached reports nothing. */
  lemma {:induction false} StoppedIsSilent(events: seq<Event>, session: SessionId, e: Event, more: seq<Event>)
    requires session in Play(INITIAL, events).active
    requires e == DetachOrStop(session) || e == Stop(session, true) || e == Stop(session, false)
    ensures var s, t := Play(INITIAL, events), Play(INITIAL, events + [e] + more);
      && session in s.generations && s.emitted <= t.emitted
      && forall k :: |s.emitted| <= k < |t.emitted| ==> t.emitted[k].generation != s.generations[session]
  {
    var s := Play(INITIAL, events);
    PlayKeepsInv(events);
    PlayNext(events, e);
    assert ActiveFits(s, session) && CurrentFits(s, session);
    var g := s.generations[session];
    StopLeaves(s, session, e == Stop(session, true));
    assert Marked(Step(s, e), g);
    SilentOnceMarked(events + [e], more, g);
  }

  /** A stop that the process does not heed: when the time is up it is detached, and its exit,
      whenever it comes, ends the launch without a report. */
  lemma {:induction false} ForcedStopEnds(events: seq<Event>, session: SessionId, orphan: bool, hasTmux: bool, code: Option<int>, next: Pty, spawns: bool)
    requires var s := Play(INITIAL, events);
      && session in s.active && session in s.generations && s.active[session] in s.clients && !s.clients[s.active[session]].exited
      && next !in s.clients
    ensures var s := Play(INITIAL, events);
      var g, p := s.generations[session], s.active[session];
      var timedOut := events + [Stop(session, orphan)] + [StopTimeout(session, g, p)];
      var t, u := Play(INITIAL, timedOut), Play(INITIAL, timedOut + [Exit(p, hasTmux, code, next, spawns)]);
      && t.active == s.active - {session} && t.generations == s.generations && t.emitted == s.emitted
      && u.active == t.active && u.generations == s.generations - {session} && session !in u.runtimes && u.emitted == s.emitted
  {
    var s := Play(INITIAL, events);
    PlayKeepsInv(events);
    assert ActiveFits(s, session) && CurrentFits(s, session);
    var g, p := s.generations[session], s.active[session];
    var stopped := events + [Stop(session, orphan)];
    PlayNext(events, Stop(session, orphan));
    PlayNext(stopped, StopTimeout(session, g, p));
    PlayNext(stopped + [StopTimeout(session, g, p)], Exit(p, hasTmux, code, next, spawns));
    TimedOutIs(s, session, orphan);
    ForcedExitIs(Play(INITIAL, stopped + [StopTimeout(session, g, p)]), session, p, Exit(p, hasTmux, code, next, spawns));
  }

  lemma {:induction false} TimedOutIs(s: State, session: SessionId, orphan: bool)
    requires Inv(s) && session in s.active && session in s.generations && s.active[session] in s.clients && !s.clients[s.active[session]].exited
    ensures var g, p := s.generations[session], s.active[session];
      var t := Step(Step(s, Stop(session, orphan)), StopTimeout(session, g, p));
      && t.active == s.active - {session} && t.generations == s.generations && t.emitted == s.emitted && t.clients == s.clients
      && g in t.intents && t.intents[g].stopping && t.intents[g].forced == Some(p)
  {
    assert CurrentFits(s, session);
  }

  lemma {:induction false} ForcedExitIs(t: State, session: SessionId, p: Pty, e: Event)
    requires e.Exit? && e.pty == p && p in t.clients && !t.clients[p].exited && t.clients[p].session == session && e.next !in t.clients
    requires var g := t.clients[p].generation; Current(t, session, g) && g in t.intents && t.intents[g].stopping && t.intents[g].forced == Some(p)
    requires session !in t.active
    ensures var u := Step(t, e);
      && u.active == t.active && u.generations == t.generations - {session} && session !in u.runtimes && u.emitted == t.emitted
  {
    var c := t.clients[p];
    assert Counts(t.(clients := t.clients[p := c.(exited := true)]), c, p);
  }
}

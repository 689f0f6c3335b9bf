/** Launches of the processes behind sessions. A session id outlives its launches; each
    launch is a generation, and the callbacks of old generations must do no harm. */
module ProcessRunner {
  import opened Results

  type SessionId = nat
  /** Identities of ProcessGeneration and PTY objects. */
  type Generation = nat
  type Pty = nat

  datatype Runtime = Tmux | Direct

  /** The fields of one generation object, with the session its launch belongs to. */
  datatype Intent = Intent(session: SessionId, stopping: bool, detachOnly: bool, forced: Option<Pty>)

  /** What the callbacks of one PTY have captured, and whether it has exited. */
  datatype Client = Client(session: SessionId, generation: Generation, runtime: Runtime, exited: bool)

  datatype Outcome = Complete | Failed

  datatype Emission = Emission(generation: Generation, session: SessionId, outcome: Outcome)

  datatype State = State(
    active: map<SessionId, Pty>,
    runtimes: map<SessionId, Runtime>,
    generations: map<SessionId, Generation>,
    lastSizes: map<SessionId, nat>,
    intents: map<Generation, Intent>,
    clients: map<Pty, Client>,
    creating: set<Generation>,   // launches whose tmux session is being created
    timers: set<(SessionId, Generation, Pty)>, // stop() timeouts that are armed
    emitted: seq<Emission>,      // complete and error events
    output: seq<Pty>,            // data events, by the PTY that wrote
    kills: seq<SessionId>)       // tmux sessions told to end

  datatype Event =
    | Run(session: SessionId, generation: Generation, pty: Pty, tmux: bool, spawns: bool)
    | Created(generation: Generation, ok: bool, pty: Pty, spawns: bool)
    | Reattach(session: SessionId, generation: Generation, pty: Pty, hasTmux: bool, spawns: bool)
    | Stop(session: SessionId, orphan: bool)  // orphan: a tmux session of that name exists
    | StopTimeout(session: SessionId, generation: Generation, pty: Pty)
    | DetachOrStop(session: SessionId)   // one round of stopAll's loop
    | Resize(session: SessionId, size: nat)
    | Data(pty: Pty)
    | Exit(pty: Pty, hasTmux: bool, code: Option<int>, next: Pty, spawns: bool)

  predicate Current(s: State, session: SessionId, g: Generation) {
    session in s.generations && s.generations[session] == g
  }

  predicate Attached(s: State, session: SessionId, p: Pty) {
    session in s.active && s.active[session] == p
  }

  function Emit(s: State, g: Generation, session: SessionId, o: Outcome): State {
    s.(emitted := s.emitted + [Emission(g, session, o)])
  }

  /** Drop the generation and the runtime of a session. */
  function Drop(s: State, session: SessionId): State {
    s.(generations := s.generations - {session}, runtimes := s.runtimes - {session})
  }

  /** attachTmux, without the reattaching exit callback. */
  function Attach(s: State, session: SessionId, g: Generation, p: Pty, spawns: bool): State {
    if !Current(s, session, g) then s
    else if !spawns then Emit(Drop(s, session), g, session, Failed)
    else s.(active := s.active[session := p], runtimes := s.runtimes[session := Tmux],
            clients := s.clients[p := Client(session, g, Tmux, false)])
  }

  function Launch(s: State, session: SessionId, g: Generation): State {
    s.(generations := s.generations[session := g], intents := s.intents[g := Intent(session, false, false, None)])
  }

  /** The intents after the session's current launch, if there is one, was told to stop. */
  function StoppedIntents(generations: map<SessionId, Generation>, intents: map<Generation, Intent>, session: SessionId)
    : map<Generation, Intent>
  {
    if session in generations && generations[session] in intents then
      var g := generations[session];
      intents[g := intents[g].(stopping := true)]
    else intents
  }

  function MarkStopping(s: State, session: SessionId): State {
    s.(intents := StoppedIntents(s.generations, s.intents, session))
  }

  function Kill(s: State, session: SessionId): State {
    s.(kills := s.kills + [session])
  }

  predicate InTmux(s: State, session: SessionId) {
    session in s.runtimes && s.runtimes[session] == Tmux
  }

  /** stop(): end the tmux session of the launch, or one that no client is attached to;
      mark the launch, and arm the timeout if a PTY is attached. */
  function StopStep(s: State, session: SessionId, orphan: bool): State {
    Killed(Armed(s, session), session, InTmux(s, session) || (session !in s.active && orphan))
  }

  function Armed(s: State, session: SessionId): State {
    var m := if session in s.active || InTmux(s, session) then MarkStopping(s, session) else s;
    if session in s.active && session in s.generations then
      m.(timers := m.timers + {(session, s.generations[session], s.active[session])})
    else m
  }

  function Killed(s: State, session: SessionId, kills: bool): State {
    if kills then Kill(s, session) else s
  }

  /** Is this exit still the business of the session's current launch? */
  predicate Counts(s: State, c: Client, p: Pty) {
    && Current(s, c.session, c.generation) && c.generation in s.intents
    && (Attached(s, c.session, p)
        || (s.intents[c.generation].stopping && s.intents[c.generation].forced == Some(p) && c.session !in s.active))
  }

  function ExitStep(s: State, p: Pty, hasTmux: bool, code: Option<int>, next: Pty, spawns: bool): State
    requires p in s.clients
  {
    var c := s.clients[p];
    var t := s.(clients := s.clients[p := c.(exited := true)]);
    if !Counts(t, c, p) then t
    else
      var u := t.(active := t.active - {c.session}, runtimes := t.runtimes - {c.session});
      if c.runtime == Tmux then TmuxExit(u, c, hasTmux, code, next, spawns) else DirectExit(u, c, code)
  }

  /** What the exit of an attach client means, once it counts. */
  function TmuxExit(u: State, c: Client, hasTmux: bool, code: Option<int>, next: Pty, spawns: bool): State
    requires c.generation in u.intents
  {
    var intent := u.intents[c.generation];
    if intent.detachOnly then u.(generations := u.generations - {c.session})
    else if intent.stopping then Forget(u, c.session)
    else if hasTmux then Attach(u, c.session, c.generation, next, spawns)
    else Emit(Forget(u, c.session), c.generation, c.session, if code == Some(0) then Complete else Failed)
  }

  function DirectExit(u: State, c: Client, code: Option<int>): State
    requires c.generation in u.intents
  {
    var v := Forget(u, c.session);
    if u.intents[c.generation].stopping then v
    else Emit(v, c.generation, c.session, if code == Some(0) || code.None? then Complete else Failed)
  }

  function Forget(s: State, session: SessionId): State {
    s.(generations := s.generations - {session}, lastSizes := s.lastSizes - {session})
  }

  function Step(s: State, e: Event): State {
    match e
    case Run(session, g, p, tmux, spawns) =>
      if g in s.intents || p in s.clients then s
      else
        var t := Launch(s, session, g).(active := s.active - {session}, lastSizes := s.lastSizes - {session});
        if tmux then t.(runtimes := t.runtimes[session := Tmux], creating := t.creating + {g})
        else if !spawns then Emit(Drop(t, session), g, session, Failed)
        else t.(active := t.active[session := p], runtimes := t.runtimes[session := Direct],
                clients := t.clients[p := Client(session, g, Direct, false)])
    case Created(g, ok, p, spawns) =>
      if g !in s.creating || g !in s.intents || p in s.clients then s
      else
        var t := s.(creating := s.creating - {g});
        var session := s.intents[g].session;
        if !Current(t, session, g) then t
        else if !ok then
          if s.intents[g].stopping then Drop(t, session) else Emit(Drop(t, session), g, session, Failed)
        else if s.intents[g].stopping then Kill(Drop(t, session), session)
        else Attach(t, session, g, p, spawns)
    case Reattach(session, g, p, hasTmux, spawns) =>
      if session in s.active || !hasTmux || g in s.intents || p in s.clients then s
      else Attach(Launch(s, session, g), session, g, p, spawns)
    case Stop(session, orphan) => StopStep(s, session, orphan)
    case StopTimeout(session, g, p) =>
      if (session, g, p) !in s.timers then s
      else
        var t := s.(timers := s.timers - {(session, g, p)});
        if p !in s.clients || s.clients[p].exited || g !in s.intents then t
        else if Current(s, session, g) && Attached(s, session, p) then
          t.(intents := t.intents[g := t.intents[g].(forced := Some(p))], active := t.active - {session})
        else t
    case DetachOrStop(session) =>
      if session !in s.active then s
      else if InTmux(s, session) then
        if session in s.generations && s.generations[session] in s.intents then
          var g := s.generations[session];
          s.(intents := s.intents[g := s.intents[g].(detachOnly := true)])
        else s
      else StopStep(s, session, false)
    case Resize(session, size) => if session in s.active then s.(lastSizes := s.lastSizes[session := size]) else s
    case Data(p) =>
      if p in s.clients && Current(s, s.clients[p].session, s.clients[p].generation) && Attached(s, s.clients[p].session, p) then
        s.(output := s.output + [p])
      else s
    case Exit(p, hasTmux, code, next, spawns) =>
      if p !in s.clients || s.clients[p].exited || next in s.clients then s else ExitStep(s, p, hasTmux, code, next, spawns)
  }

  function Play(s: State, events: seq<Event>): State {
    if events == [] then s else Step(Play(s, events[..|events| - 1]), events[|events| - 1])
  }

  const INITIAL := State(map[], map[], map[], map[], map[], map[], {}, {}, [], [], [])

  // ---------- the invariant ----------

  function Emitters(emitted: seq<Emission>): set<Generation> {
    set e | e in emitted :: e.generation
  }

  /** An attached PTY belongs to the session's current launch and runs as recorded. */
  predicate ActiveFits(s: State, session: SessionId) {
    session in s.active ==>
      && s.active[session] in s.clients
      && var c := s.clients[s.active[session]];
         && c.session == session && Current(s, session, c.generation)
         && session in s.runtimes && s.runtimes[session] == c.runtime
  }

  predicate CurrentFits(s: State, session: SessionId) {
    session in s.generations ==>
      && s.generations[session] in s.intents
      && s.intents[s.generations[session]].session == session
      && s.generations[session] !in Emitters(s.emitted)
      && (s.generations[session] in s.creating ==> session !in s.active && InTmux(s, session))
  }

  predicate ClientFits(s: State, p: Pty) {
    p in s.clients ==>
      var c := s.clients[p];
      && c.generation in s.intents && s.intents[c.generation].session == c.session
      && c.generation !in s.creating
      && (c.runtime == Direct ==> !s.intents[c.generation].detachOnly)
      && (forall q <- s.clients :: s.clients[q].generation == c.generation ==> s.clients[q].runtime == c.runtime)
  }

  predicate CreatingFits(s: State, g: Generation) {
    g in s.creating ==> g in s.intents && !s.intents[g].detachOnly && g !in Emitters(s.emitted)
  }

  ghost predicate Inv(s: State) {
    && (forall session :: ActiveFits(s, session))
    && (forall session :: CurrentFits(s, session))
    && (forall p :: ClientFits(s, p))
    && (forall g :: CreatingFits(s, g))
    && (forall g <- Emitters(s.emitted) :: g in s.intents)
    && (forall t <- s.timers :: t.1 in s.intents && s.intents[t.1].stopping)
    && (forall j, k :: 0 <= j < k < |s.emitted| ==> s.emitted[j].generation != s.emitted[k].generation)
  }

  // ---------- every step keeps it ----------

  lemma EmitFits(emitted: seq<Emission>, e: Emission)
    requires e.generation !in Emitters(emitted)
    requires forall j, k :: 0 <= j < k < |emitted| ==> emitted[j].generation != emitted[k].generation
    ensures Emitters(emitted + [e]) == Emitters(emitted) + {e.generation}
    ensures forall j, k :: 0 <= j < k < |emitted + [e]| ==> (emitted + [e])[j].generation != (emitted + [e])[k].generation
  {
    assert forall x :: x in emitted + [e] <==> x in emitted || x == e;
    assert forall j :: 0 <= j < |emitted| ==> emitted[j] in emitted;
  }

  /** A launch that is not current any more, or ends now, may report its end once. */
  lemma DropAndEmitKeepsInv(s: State, session: SessionId, o: Outcome)
    requires Inv(s) && session in s.generations && session !in s.active
    requires s.generations[session] !in s.creating
    ensures Inv(Emit(Drop(s, session), s.generations[session], session, o))
  {
    var g := s.generations[session];
    EmitFits(s.emitted, Emission(g, session, o));
    var t := Emit(Drop(s, session), g, session, o);
    assert CurrentFits(s, session);
    forall x ensures ActiveFits(t, x) { assert ActiveFits(s, x); }
    forall x ensures CurrentFits(t, x) { assert CurrentFits(s, x); }
    forall p ensures ClientFits(t, p) { assert ClientFits(s, p); }
    forall h ensures CreatingFits(t, h) { assert CreatingFits(s, h); }
  }

  lemma AttachKeepsInv(s: State, session: SessionId, p: Pty, spawns: bool)
    requires Inv(s) && session in s.generations && session !in s.active && p !in s.clients
    requires s.generations[session] !in s.creating
    requires forall q <- s.clients :: s.clients[q].generation == s.generations[session] ==> s.clients[q].runtime == Tmux
    ensures Inv(Attach(s, session, s.generations[session], p, spawns))
  {
    var g := s.generations[session];
    if !spawns {
      DropAndEmitKeepsInv(s, session, Failed);
    } else {
      var t := Attach(s, session, g, p, spawns);
      assert CurrentFits(s, session);
      forall x ensures ActiveFits(t, x) { assert ActiveFits(s, x); }
      forall x ensures CurrentFits(t, x) { assert CurrentFits(s, x); }
      forall q ensures ClientFits(t, q) { assert ClientFits(s, q); }
      forall h ensures CreatingFits(t, h) { assert CreatingFits(s, h); }
    }
  }

  /** A new generation object in place of whatever was current, with nothing attached. */
  lemma LaunchKeepsInv(s: State, session: SessionId, g: Generation)
    requires Inv(s) && g !in s.intents
    ensures var t := Launch(s, session, g).(active := s.active - {session});
      && Inv(t) && g !in t.creating && g !in Emitters(t.emitted)
      && (forall q <- t.clients :: t.clients[q].generation != g)
  {
    var t := Launch(s, session, g).(active := s.active - {session});
    assert CreatingFits(s, g);
    forall q <- s.clients ensures s.clients[q].generation != g { assert ClientFits(s, q); }
    forall x ensures ActiveFits(t, x) { assert ActiveFits(s, x); }
    forall x ensures CurrentFits(t, x) { assert CurrentFits(s, x); }
    forall p ensures ClientFits(t, p) { assert ClientFits(s, p); }
    forall h ensures CreatingFits(t, h) { assert CreatingFits(s, h); }
  }

  /** Fields the invariant does not read. */
  lemma SizesDoNotMatter(s: State, t: State)
    requires Inv(s) && t == s.(lastSizes := t.lastSizes, output := t.output, kills := t.kills)
    ensures Inv(t)
  {
    forall x ensures ActiveFits(t, x) { assert ActiveFits(s, x); }
    forall x ensures CurrentFits(t, x) { assert CurrentFits(s, x); }
    forall p ensures ClientFits(t, p) { assert ClientFits(s, p); }
    forall h ensures CreatingFits(t, h) { assert CreatingFits(s, h); }
  }

  lemma StartTmuxKeepsInv(s: State, session: SessionId, g: Generation)
    requires Inv(s) && Current(s, session, g) && session !in s.active && g !in Emitters(s.emitted)
    requires g in s.intents && !s.intents[g].detachOnly
    requires forall q <- s.clients :: s.clients[q].generation != g
    ensures Inv(s.(runtimes := s.runtimes[session := Tmux], creating := s.creating + {g}))
  {
    var t := s.(runtimes := s.runtimes[session := Tmux], creating := s.creating + {g});
    assert CurrentFits(s, session);
    forall x ensures ActiveFits(t, x) { assert ActiveFits(s, x); }
    forall x ensures CurrentFits(t, x) { assert CurrentFits(s, x); }
    forall p ensures ClientFits(t, p) { assert ClientFits(s, p); }
    forall h ensures CreatingFits(t, h) { assert CreatingFits(s, h); }
  }

  lemma StartDirectKeepsInv(s: State, session: SessionId, g: Generation, p: Pty)
    requires Inv(s) && Current(s, session, g) && session !in s.active && p !in s.clients
    requires g in s.intents && !s.intents[g].detachOnly && g !in s.creating
    requires forall q <- s.clients :: s.clients[q].generation != g
    ensures Inv(s.(active := s.active[session := p], runtimes := s.runtimes[session := Direct],
                   clients := s.clients[p := Client(session, g, Direct, false)]))
  {
    var t := s.(active := s.active[session := p], runtimes := s.runtimes[session := Direct],
                clients := s.clients[p := Client(session, g, Direct, false)]);
    assert CurrentFits(s, session);
    forall x ensures ActiveFits(t, x) { assert ActiveFits(s, x); }
    forall x ensures CurrentFits(t, x) { assert CurrentFits(s, x); }
    forall q ensures ClientFits(t, q) { assert ClientFits(s, q); }
    forall h ensures CreatingFits(t, h) { assert CreatingFits(s, h); }
  }

  lemma RunKeepsInv(s: State, session: SessionId, g: Generation, p: Pty, tmux: bool, spawns: bool)
    requires Inv(s)
    ensures Inv(Step(s, Run(session, g, p, tmux, spawns)))
  {
    if g !in s.intents && p !in s.clients {
      LaunchKeepsInv(s, session, g);
      var t := Launch(s, session, g).(active := s.active - {session});
      var u := t.(lastSizes := s.lastSizes - {session});
      SizesDoNotMatter(t, u);
      if tmux { StartTmuxKeepsInv(u, session, g); }
      else if spawns { StartDirectKeepsInv(u, session, g, p); }
      else { DropAndEmitKeepsInv(u, session, Failed); }
    }
  }

  lemma DropKeepsInv(s: State, session: SessionId)
    requires Inv(s) && session !in s.active
    ensures Inv(Drop(s, session))
  {
    var t := Drop(s, session);
    forall x ensures ActiveFits(t, x) { assert ActiveFits(s, x); }
    forall x ensures CurrentFits(t, x) { assert CurrentFits(s, x); }
    forall p ensures ClientFits(t, p) { assert ClientFits(s, p); }
    forall h ensures CreatingFits(t, h) { assert CreatingFits(s, h); }
  }

  lemma CreationOverKeepsInv(s: State, g: Generation)
    requires Inv(s) && g in s.creating
    ensures Inv(s.(creating := s.creating - {g}))
    ensures forall q <- s.clients :: s.clients[q].generation != g
  {
    var t := s.(creating := s.creating - {g});
    forall q <- s.clients ensures s.clients[q].generation != g { assert ClientFits(s, q); }
    forall x ensures ActiveFits(t, x) { assert ActiveFits(s, x); }
    forall x ensures CurrentFits(t, x) { assert CurrentFits(s, x); }
    forall p ensures ClientFits(t, p) { assert ClientFits(s, p); }
    forall h ensures CreatingFits(t, h) { assert CreatingFits(s, h); }
  }

  lemma CreatedKeepsInv(s: State, g: Generation, ok: bool, p: Pty, spawns: bool)
    requires Inv(s)
    ensures Inv(Step(s, Created(g, ok, p, spawns)))
  {
    if g in s.creating && g in s.intents && p !in s.clients {
      CreationOverKeepsInv(s, g);
      var t := s.(creating := s.creating - {g});
      var session := s.intents[g].session;
      if Current(t, session, g) {
        assert CurrentFits(s, session);
        if s.intents[g].stopping {
          DropKeepsInv(t, session);
          SizesDoNotMatter(Drop(t, session), Kill(Drop(t, session), session));
        }
        else if !ok { DropAndEmitKeepsInv(t, session, Failed); }
        else { AttachKeepsInv(t, session, p, spawns); }
      }
    }
  }

  lemma ReattachKeepsInv(s: State, session: SessionId, g: Generation, p: Pty, hasTmux: bool, spawns: bool)
    requires Inv(s)
    ensures Inv(Step(s, Reattach(session, g, p, hasTmux, spawns)))
  {
    if session !in s.active && hasTmux && g !in s.intents && p !in s.clients {
      LaunchKeepsInv(s, session, g);
      assert s.active - {session} == s.active;
      AttachKeepsInv(Launch(s, session, g), session, p, spawns);
    }
  }

  /** Marking a launch: stopping any time, detach-only just for launches through tmux. */
  lemma IntentKeepsInv(s: State, g: Generation, intent: Intent)
    requires Inv(s) && g in s.intents && intent.session == s.intents[g].session
    requires s.intents[g].stopping ==> intent.stopping
    requires intent.detachOnly != s.intents[g].detachOnly ==>
               g !in s.creating && forall q <- s.clients :: s.clients[q].generation == g ==> s.clients[q].runtime == Tmux
    ensures Inv(s.(intents := s.intents[g := intent]))
  {
    var t := s.(intents := s.intents[g := intent]);
    forall x ensures ActiveFits(t, x) { assert ActiveFits(s, x); }
    forall x ensures CurrentFits(t, x) { assert CurrentFits(s, x); }
    forall p ensures ClientFits(t, p) { assert ClientFits(s, p); }
    forall h ensures CreatingFits(t, h) { assert CreatingFits(s, h); }
  }

  lemma TimersKeepInv(s: State, timers: set<(SessionId, Generation, Pty)>)
    requires Inv(s)
    requires forall t <- timers :: t in s.timers || (t.1 in s.intents && s.intents[t.1].stopping)
    ensures Inv(s.(timers := timers))
  {
    var t := s.(timers := timers);
    forall x ensures ActiveFits(t, x) { assert ActiveFits(s, x); }
    forall x ensures CurrentFits(t, x) { assert CurrentFits(s, x); }
    forall p ensures ClientFits(t, p) { assert ClientFits(s, p); }
    forall h ensures CreatingFits(t, h) { assert CreatingFits(s, h); }
  }

  lemma ArmedKeepsInv(s: State, session: SessionId)
    requires Inv(s)
    ensures Inv(Armed(s, session))
  {
    assert CurrentFits(s, session) && ActiveFits(s, session);
    if session in s.generations {
      var g := s.generations[session];
      IntentKeepsInv(s, g, s.intents[g].(stopping := true));
      var t := MarkStopping(s, session);
      if session in s.active { TimersKeepInv(t, t.timers + {(session, g, s.active[session])}); }
    }
  }

  lemma StopKeepsInv(s: State, session: SessionId, orphan: bool)
    requires Inv(s)
    ensures Inv(StopStep(s, session, orphan))
  {
    ArmedKeepsInv(s, session);
    SizesDoNotMatter(Armed(s, session), StopStep(s, session, orphan));
  }

  lemma DetachKeepsInv(s: State, session: SessionId)
    requires Inv(s)
    ensures Inv(Step(s, DetachOrStop(session)))
  {
    StopKeepsInv(s, session, false);
    assert CurrentFits(s, session) && ActiveFits(s, session);
    if session in s.active && session in s.runtimes && s.runtimes[session] == Tmux {
      var g := s.generations[session];
      assert ClientFits(s, s.active[session]);
      forall q <- s.clients | s.clients[q].generation == g ensures s.clients[q].runtime == Tmux {
        assert ClientFits(s, q);
      }
      IntentKeepsInv(s, g, s.intents[g].(detachOnly := true));
    }
  }

  lemma DetachedKeepsInv(s: State, session: SessionId)
    requires Inv(s)
    ensures Inv(s.(active := s.active - {session}))
  {
    var t := s.(active := s.active - {session});
    forall x ensures ActiveFits(t, x) { assert ActiveFits(s, x); }
    forall x ensures CurrentFits(t, x) { assert CurrentFits(s, x); }
    forall p ensures ClientFits(t, p) { assert ClientFits(s, p); }
    forall h ensures CreatingFits(t, h) { assert CreatingFits(s, h); }
  }

  /** Nothing is attached any more, and the launch is not being created either. */
  lemma GoneKeepsInv(s: State, session: SessionId)
    requires Inv(s) && session !in s.active
    requires session in s.generations ==> s.generations[session] !in s.creating
    ensures Inv(s.(runtimes := s.runtimes - {session}))
  {
    var t := s.(runtimes := s.runtimes - {session});
    forall x ensures ActiveFits(t, x) { assert ActiveFits(s, x); }
    forall x ensures CurrentFits(t, x) { assert CurrentFits(s, x); }
    forall p ensures ClientFits(t, p) { assert ClientFits(s, p); }
    forall h ensures CreatingFits(t, h) { assert CreatingFits(s, h); }
  }

  lemma TimeoutKeepsInv(s: State, session: SessionId, g: Generation, p: Pty)
    requires Inv(s)
    ensures Inv(Step(s, StopTimeout(session, g, p)))
  {
    if (session, g, p) in s.timers {
      var t := s.(timers := s.timers - {(session, g, p)});
      TimersKeepInv(s, s.timers - {(session, g, p)});
      if g in s.intents {
        IntentKeepsInv(t, g, t.intents[g].(forced := Some(p)));
        DetachedKeepsInv(t.(intents := t.intents[g := t.intents[g].(forced := Some(p))]), session);
      }
    }
  }

  lemma ExitedKeepsInv(s: State, p: Pty)
    requires Inv(s) && p in s.clients
    ensures Inv(s.(clients := s.clients[p := s.clients[p].(exited := true)]))
  {
    var t := s.(clients := s.clients[p := s.clients[p].(exited := true)]);
    forall x ensures ActiveFits(t, x) { assert ActiveFits(s, x); }
    forall x ensures CurrentFits(t, x) { assert CurrentFits(s, x); }
    forall q ensures ClientFits(t, q) { assert ClientFits(s, q); assert ClientFits(s, p); }
    forall h ensures CreatingFits(t, h) { assert CreatingFits(s, h); }
  }

  lemma TmuxExitKeepsInv(u: State, p: Pty, hasTmux: bool, code: Option<int>, next: Pty, spawns: bool)
    requires Inv(u) && p in u.clients && next !in u.clients
    requires u.clients[p].runtime == Tmux && Current(u, u.clients[p].session, u.clients[p].generation)
    requires u.clients[p].session !in u.active && u.clients[p].session !in u.runtimes
    ensures u.clients[p].generation in u.intents
    ensures Inv(TmuxExit(u, u.clients[p], hasTmux, code, next, spawns))
  {
    var c := u.clients[p];
    assert ClientFits(u, p) && CurrentFits(u, c.session);
    if u.intents[c.generation].detachOnly || u.intents[c.generation].stopping || !hasTmux {
      EndKeepsInv(u, c.session);
    } else {
      forall q <- u.clients | u.clients[q].generation == c.generation ensures u.clients[q].runtime == Tmux {
        assert ClientFits(u, q);
      }
      AttachKeepsInv(u, c.session, next, spawns);
    }
  }

  /** A launch goes with nothing attached, with a report or without. */
  lemma EndKeepsInv(u: State, session: SessionId)
    requires Inv(u) && session in u.generations && session !in u.active && session !in u.runtimes
    requires u.generations[session] !in u.creating
    ensures Inv(u.(generations := u.generations - {session})) && Inv(Forget(u, session))
    ensures forall o :: Inv(Emit(Forget(u, session), u.generations[session], session, o))
  {
    var v := u.(lastSizes := u.lastSizes - {session});
    assert u.runtimes - {session} == u.runtimes;
    SizesDoNotMatter(u, v);
    DropKeepsInv(u, session);
    DropKeepsInv(v, session);
    forall o ensures Inv(Emit(Forget(u, session), u.generations[session], session, o)) {
      DropAndEmitKeepsInv(v, session, o);
    }
  }

  lemma ExitKeepsInv(s: State, p: Pty, hasTmux: bool, code: Option<int>, next: Pty, spawns: bool)
    requires Inv(s) && p in s.clients && next !in s.clients
    ensures Inv(ExitStep(s, p, hasTmux, code, next, spawns))
  {
    var c := s.clients[p].(exited := true);
    var t := s.(clients := s.clients[p := c]);
    ExitedKeepsInv(s, p);
    if Counts(t, s.clients[p], p) {
      var u := t.(active := t.active - {c.session}, runtimes := t.runtimes - {c.session});
      assert ClientFits(t, p);
      DetachedKeepsInv(t, c.session);
      GoneKeepsInv(t.(active := t.active - {c.session}), c.session);
      assert ClientFits(u, p);
      if c.runtime == Tmux {
        TmuxExitKeepsInv(u, p, hasTmux, code, next, spawns);
      } else {
        EndKeepsInv(u, c.session);
      }
    }
  }

  lemma StepKeepsInv(s: State, e: Event)
    requires Inv(s)
    ensures Inv(Step(s, e))
  {
    match e
    case Run(session, g, p, tmux, spawns) => RunKeepsInv(s, session, g, p, tmux, spawns);
    case Created(g, ok, p, spawns) => CreatedKeepsInv(s, g, ok, p, spawns);
    case Reattach(session, g, p, hasTmux, spawns) => ReattachKeepsInv(s, session, g, p, hasTmux, spawns);
    case Stop(session, orphan) => StopKeepsInv(s, session, orphan);
    case StopTimeout(session, g, p) => TimeoutKeepsInv(s, session, g, p);
    case DetachOrStop(session) => DetachKeepsInv(s, session);
    case Resize(_, _) => SizesDoNotMatter(s, Step(s, e));
    case Data(_) => SizesDoNotMatter(s, Step(s, e));
    case Exit(p, hasTmux, code, next, spawns) =>
      if p in s.clients && !s.clients[p].exited && next !in s.clients { ExitKeepsInv(s, p, hasTmux, code, next, spawns); }
  }

  lemma {:induction false} PlayKeepsInv(events: seq<Event>)
    ensures Inv(Play(INITIAL, events))
  {
    if events != [] {
      PlayKeepsInv(events[..|events| - 1]);
      StepKeepsInv(Play(INITIAL, events[..|events| - 1]), events[|events| - 1]);
    }
  }

  // ---------- the promises ----------

  /** A launch reports its end at most once. */
  lemma AtMostOneEnd(events: seq<Event>, j: nat, k: nat)
    requires j < k < |Play(INITIAL, events).emitted|
    ensures Play(INITIAL, events).emitted[j].generation != Play(INITIAL, events).emitted[k].generation
  {
    PlayKeepsInv(events);
  }

  predicate Marked(s: State, g: Generation) {
    g in s.intents && (s.intents[g].stopping || s.intents[g].detachOnly)
  }

  /** What only stops, time-outs, detaches, data and ended creations change. */
  predicate Untouched(s: State, t: State) {
    t.intents == s.intents && t.output == s.output && t.kills == s.kills
  }

  lemma ExitLeaves(s: State, p: Pty, hasTmux: bool, code: Option<int>, next: Pty, spawns: bool)
    requires p in s.clients
    ensures Untouched(s, ExitStep(s, p, hasTmux, code, next, spawns))
  {
  }

  /** The tmux session of g was created after g had been stopped. */
  predicate CreatedTooLate(s: State, g: Generation, ok: bool, p: Pty) {
    && ok && g in s.creating && g in s.intents && p !in s.clients
    && s.intents[g].stopping && Current(s, s.intents[g].session, g)
  }

  lemma CreatedLeaves(s: State, g: Generation, ok: bool, p: Pty, spawns: bool)
    ensures var t := Step(s, Created(g, ok, p, spawns));
      && t.intents == s.intents && t.output == s.output
      && t.kills == s.kills + (if CreatedTooLate(s, g, ok, p) then [s.intents[g].session] else [])
  {
    assert s.kills + [] == s.kills;
  }

  lemma StopLeaves(s: State, session: SessionId, orphan: bool)
    ensures var t := StopStep(s, session, orphan);
      && t.output == s.output && t.emitted == s.emitted && (forall g :: Marked(s, g) ==> Marked(t, g))
      && t.kills == s.kills + (if InTmux(s, session) || (session !in s.active && orphan) then [session] else [])
  {
    assert s.kills + [] == s.kills;
  }

  /** At most one report more, and not by a launch that was marked. */
  predicate ReportsUnmarked(s: State, t: State) {
    t.emitted != s.emitted ==>
      && |t.emitted| == |s.emitted| + 1 && t.emitted[..|s.emitted|] == s.emitted
      && !Marked(s, t.emitted[|s.emitted|].generation)
  }

  lemma CreatedReports(s: State, g: Generation, ok: bool, p: Pty, spawns: bool)
    requires Inv(s)
    ensures ReportsUnmarked(s, Step(s, Created(g, ok, p, spawns)))
  {
    assert CreatingFits(s, g);
  }

  lemma ExitReports(s: State, p: Pty, hasTmux: bool, code: Option<int>, next: Pty, spawns: bool)
    requires Inv(s) && p in s.clients
    ensures ReportsUnmarked(s, ExitStep(s, p, hasTmux, code, next, spawns))
  {
    assert ClientFits(s, p);
  }

  lemma RunReports(s: State, session: SessionId, g: Generation, p: Pty, tmux: bool, spawns: bool)
    requires Inv(s)
    ensures ReportsUnmarked(s, Step(s, Run(session, g, p, tmux, spawns)))
  {
  }

  lemma ReattachReports(s: State, session: SessionId, g: Generation, p: Pty, hasTmux: bool, spawns: bool)
    requires Inv(s)
    ensures ReportsUnmarked(s, Step(s, Reattach(session, g, p, hasTmux, spawns)))
  {
  }

  lemma StepEmission(s: State, e: Event)
    requires Inv(s)
    ensures ReportsUnmarked(s, Step(s, e))
  {
    match e
    case Run(session, g, p, tmux, spawns) => RunReports(s, session, g, p, tmux, spawns);
    case Reattach(session, g, p, hasTmux, spawns) => ReattachReports(s, session, g, p, hasTmux, spawns);
    case Created(g, ok, p, spawns) => CreatedReports(s, g, ok, p, spawns);
    case Exit(p, hasTmux, code, next, spawns) =>
      if p in s.clients && !s.clients[p].exited && next !in s.clients { ExitReports(s, p, hasTmux, code, next, spawns); }
    case Stop(session, orphan) => StopLeaves(s, session, orphan);
    case DetachOrStop(session) => StopLeaves(s, session, false);
    case _ =>
  }

  lemma MarksStay(s: State, e: Event, g: Generation)
    requires Marked(s, g)
    ensures Marked(Step(s, e), g)
  {
    match e
    case Created(h, ok, p, spawns) => CreatedLeaves(s, h, ok, p, spawns);
    case Exit(p, hasTmux, code, next, spawns) =>
      if p in s.clients && !s.clients[p].exited && next !in s.clients { ExitLeaves(s, p, hasTmux, code, next, spawns); }
    case Stop(session, orphan) => StopLeaves(s, session, orphan);
    case DetachOrStop(session) => StopLeaves(s, session, false);
    case _ =>
  }

  lemma SilentIf(s: State, t: State, g: Generation)
    requires ReportsUnmarked(s, t) && Marked(s, g)
    ensures s.emitted <= t.emitted
    ensures forall k :: |s.emitted| <= k < |t.emitted| ==> t.emitted[k].generation != g
  {
  }

  lemma SilentStep(s: State, e: Event, g: Generation)
    requires Inv(s) && Marked(s, g)
    ensures s.emitted <= Step(s, e).emitted
    ensures forall k :: |s.emitted| <= k < |Step(s, e).emitted| ==> Step(s, e).emitted[k].generation != g
  {
    StepEmission(s, e);
    SilentIf(s, Step(s, e), g);
  }

  lemma PlayNext(events: seq<Event>, e: Event)
    ensures Play(INITIAL, events + [e]) == Step(Play(INITIAL, events), e)
  {
    assert (events + [e])[..|events|] == events;
  }

  /** Once a launch was told to stop or to detach, it reports no end any more. */
  lemma {:induction false} SilentOnceMarked(events: seq<Event>, more: seq<Event>, g: Generation)
    requires Marked(Play(INITIAL, events), g)
    ensures Marked(Play(INITIAL, events + more), g)
    ensures Play(INITIAL, events).emitted <= Play(INITIAL, events + more).emitted
    ensures forall k :: |Play(INITIAL, events).emitted| <= k < |Play(INITIAL, events + more).emitted| ==>
              Play(INITIAL, events + more).emitted[k].generation != g
  {
    if more == [] {
      assert events + more == events;
    } else {
      var front, last := more[..|more| - 1], more[|more| - 1];
      SilentOnceMarked(events, front, g);
      assert events + more == (events + front) + [last];
      PlayNext(events + front, last);
      PlayKeepsInv(events + front);
      SilentStep(Play(INITIAL, events + front), last, g);
      MarksStay(Play(INITIAL, events + front), last, g);
    }
  }

  /** The launch an event's callback belongs to, if the event is a callback. */
  function CallbackOf(s: State, e: Event): Option<Generation> {
    match e
    case Created(g, _, _, _) => Some(g)
    case StopTimeout(_, g, _) => Some(g)
    case Data(p) => if p in s.clients then Some(s.clients[p].generation) else None
    case Exit(p, _, _, _, _) => if p in s.clients then Some(s.clients[p].generation) else None
    case _ => None
  }

  /** Nothing that any launch has is different: what is attached, the runtimes, the
      current launches, the sizes, the intents, what was reported, and what was killed. */
  predicate NothingChanged(s: State, t: State) {
    && t.active == s.active && t.runtimes == s.runtimes && t.generations == s.generations
    && t.lastSizes == s.lastSizes && t.intents == s.intents
    && t.emitted == s.emitted && t.output == s.output && t.kills == s.kills
  }

  lemma StaleExit(s: State, p: Pty, hasTmux: bool, code: Option<int>, next: Pty, spawns: bool)
    requires Inv(s) && p in s.clients && !Current(s, s.clients[p].session, s.clients[p].generation)
    ensures NothingChanged(s, Step(s, Exit(p, hasTmux, code, next, spawns)))
  {
  }

  lemma StaleTimeout(s: State, session: SessionId, g: Generation, p: Pty)
    requires Inv(s) && !Current(s, session, g)
    ensures NothingChanged(s, Step(s, StopTimeout(session, g, p)))
  {
  }

  lemma StaleStep(s: State, e: Event, g: Generation)
    requires Inv(s) && CallbackOf(s, e) == Some(g) && g in s.intents
    requires !Current(s, s.intents[g].session, g)
    ensures NothingChanged(s, Step(s, e))
  {
    match e
    case Exit(p, hasTmux, code, next, spawns) =>
      assert ClientFits(s, p);
      StaleExit(s, p, hasTmux, code, next, spawns);
    case StopTimeout(session, _, p) =>
      assert CurrentFits(s, session);
      StaleTimeout(s, session, g, p);
    case Data(p) => assert ClientFits(s, p);
    case Created(_, _, _, _) =>
  }

  /** The callbacks of a launch that is no longer its session's current one change
      nothing that a newer launch has. */
  lemma StaleCallbacksAreHarmless(events: seq<Event>, e: Event, g: Generation)
    requires CallbackOf(Play(INITIAL, events), e) == Some(g)
    requires g in Play(INITIAL, events).intents
    requires !Current(Play(INITIAL, events), Play(INITIAL, events).intents[g].session, g)
    ensures NothingChanged(Play(INITIAL, events), Play(INITIAL, events + [e]))
  {
    PlayKeepsInv(events);
    PlayNext(events, e);
    StaleStep(Play(INITIAL, events), e, g);
  }

  /** The session whose tmux session an event tells to end, if it does. */
  function KilledBy(s: State, e: Event): Option<SessionId> {
    match e
    case Stop(session, orphan) =>
      if InTmux(s, session) || (session !in s.active && orphan) then Some(session) else None
    case Created(g, ok, p, _) => if CreatedTooLate(s, g, ok, p) then Some(s.intents[g].session) else None
    case _ => None
  }

  /** Output passes only from the attached terminal of the current launch; a kill comes from
      a stop, or from a creation that ends for a launch that was stopped. */
  lemma OutputStep(s: State, e: Event)
    ensures Step(s, e).output != s.output ==>
      && e.Data? && e.pty in s.clients && Attached(s, s.clients[e.pty].session, e.pty)
      && Current(s, s.clients[e.pty].session, s.clients[e.pty].generation)
      && Step(s, e).output == s.output + [e.pty]
    ensures Step(s, e).kills == s.kills + (if KilledBy(s, e).Some? then [KilledBy(s, e).value] else [])
  {
    assert s.kills + [] == s.kills;
    match e
    case Created(g, ok, p, spawns) => CreatedLeaves(s, g, ok, p, spawns);
    case Exit(p, hasTmux, code, next, spawns) =>
      if p in s.clients && !s.clients[p].exited && next !in s.clients { ExitLeaves(s, p, hasTmux, code, next, spawns); }
    case Stop(session, orphan) => StopLeaves(s, session, orphan);
    case DetachOrStop(session) => StopLeaves(s, session, false);
    case _ =>
  }

  /** No launch of the session that is being created was told to stop. */
  ghost predicate NoneStopped(s: State, session: SessionId) {
    forall g <- s.creating :: Unstopped(s, session, g)
  }

  predicate Unstopped(s: State, session: SessionId, g: Generation) {
    g in s.intents && s.intents[g].session == session ==> !s.intents[g].stopping
  }

  /** A stop marks one launch, the session's current one, or none. */
  lemma StopMarks(s: State, session: SessionId, orphan: bool)
    ensures var t := StopStep(s, session, orphan);
      t.creating == s.creating && (t.intents == s.intents || t.intents == MarkStopping(s, session).intents)
  {
  }

  lemma MarkingSpares(s: State, other: SessionId, session: SessionId)
    requires Inv(s) && NoneStopped(s, session) && (other != session || other in s.active)
    ensures NoneStopped(MarkStopping(s, other), session)
  {
    var t := MarkStopping(s, other);
    assert CurrentFits(s, other);
    forall g <- t.creating ensures Unstopped(t, session, g) { assert Unstopped(s, session, g); }
  }

  /** Leaving the bridge stops what is attached; what is being created is not. */
  lemma StopSparesCreations(s: State, other: SessionId, orphan: bool, session: SessionId)
    requires Inv(s) && NoneStopped(s, session) && (other != session || other in s.active)
    ensures NoneStopped(StopStep(s, other, orphan), session)
  {
    StopMarks(s, other, orphan);
    MarkingSpares(s, other, session);
    var m, t := MarkStopping(s, other), StopStep(s, other, orphan);
    forall g <- t.creating ensures Unstopped(t, session, g) {
      assert Unstopped(s, session, g) && Unstopped(m, session, g);
    }
  }

  lemma RunSparesCreations(s: State, session: SessionId, e: Event)
    requires Inv(s) && NoneStopped(s, session) && e.Run?
    ensures NoneStopped(Step(s, e), session)
  {
    var t := Step(s, e);
    forall g <- t.creating ensures Unstopped(t, session, g) {
      if g in s.creating { assert CreatingFits(s, g) && Unstopped(s, session, g); }
    }
  }

  lemma ReattachSparesCreations(s: State, session: SessionId, e: Event)
    requires Inv(s) && NoneStopped(s, session) && e.Reattach?
    ensures NoneStopped(Step(s, e), session)
  {
    var t := Step(s, e);
    forall g <- t.creating ensures Unstopped(t, session, g) {
      assert CreatingFits(s, g) && Unstopped(s, session, g);
    }
  }

  lemma StepStopsNone(s: State, e: Event, session: SessionId)
    requires Inv(s) && NoneStopped(s, session) && (e.Stop? ==> e.session != session)
    ensures NoneStopped(Step(s, e), session)
  {
    match e
    case Run(_, _, _, _, _) => RunSparesCreations(s, session, e);
    case Reattach(_, _, _, _, _) => ReattachSparesCreations(s, session, e);
    case Stop(other, orphan) => StopSparesCreations(s, other, orphan, session);
    case DetachOrStop(other) => DetachSparesCreations(s, other, session);
    case _ => RestSparesCreations(s, e, session);
  }

  lemma DetachSparesCreations(s: State, other: SessionId, session: SessionId)
    requires Inv(s) && NoneStopped(s, session)
    ensures NoneStopped(Step(s, DetachOrStop(other)), session)
  {
    if other in s.active { StopSparesCreations(s, other, false, session); }
    var t := Step(s, DetachOrStop(other));
    if InTmux(s, other) {
      forall g <- t.creating ensures Unstopped(t, session, g) { assert Unstopped(s, session, g); }
    }
  }

  lemma RestSparesCreations(s: State, e: Event, session: SessionId)
    requires NoneStopped(s, session)
    requires e.Created? || e.StopTimeout? || e.Resize? || e.Data? || e.Exit?
    ensures NoneStopped(Step(s, e), session)
  {
    RestLeavesStops(s, e);
    var t := Step(s, e);
    forall g <- t.creating ensures Unstopped(t, session, g) { assert Unstopped(s, session, g); }
  }

  predicate SameStops(s: State, t: State) {
    && t.creating <= s.creating && t.intents.Keys == s.intents.Keys
    && forall g <- s.intents :: t.intents[g].session == s.intents[g].session && t.intents[g].stopping == s.intents[g].stopping
  }

  lemma TimeoutLeavesStops(s: State, session: SessionId, g: Generation, p: Pty)
    ensures SameStops(s, Step(s, StopTimeout(session, g, p)))
  {
  }

  lemma RestLeavesStops(s: State, e: Event)
    requires e.Created? || e.StopTimeout? || e.Resize? || e.Data? || e.Exit?
    ensures SameStops(s, Step(s, e))
  {
    match e
    case Created(g, ok, p, spawns) => CreatedLeaves(s, g, ok, p, spawns);
    case StopTimeout(session, g, p) => TimeoutLeavesStops(s, session, g, p);
    case Exit(p, hasTmux, code, next, spawns) =>
      if p in s.clients && !s.clients[p].exited && next !in s.clients { ExitLeavesStops(s, p, hasTmux, code, next, spawns); }
    case _ =>
  }

  lemma ExitLeavesStops(s: State, p: Pty, hasTmux: bool, code: Option<int>, next: Pty, spawns: bool)
    requires p in s.clients
    ensures SameStops(s, ExitStep(s, p, hasTmux, code, next, spawns))
  {
    ExitLeaves(s, p, hasTmux, code, next, spawns);
  }

  lemma {:induction false} NoneStoppedUnlessStop(events: seq<Event>, session: SessionId)
    requires forall e <- events :: e.Stop? ==> e.session != session
    ensures NoneStopped(Play(INITIAL, events), session)
  {
    if events != [] {
      var front, last := events[..|events| - 1], events[|events| - 1];
      NoneStoppedUnlessStop(front, session);
      PlayKeepsInv(front);
      assert last in events;
      StepStopsNone(Play(INITIAL, front), last, session);
    }
  }

  /** Nothing but an explicit stop of the session ends its tmux session: leaving the bridge,
      attach clients that exit, launches that fail and creations that end late let it run. */
  lemma {:induction false} OnlyStopKills(events: seq<Event>, session: SessionId)
    requires forall e <- events :: e.Stop? ==> e.session != session
    ensures session !in Play(INITIAL, events).kills
  {
    if events != [] {
      var front, last := events[..|events| - 1], events[|events| - 1];
      OnlyStopKills(front, session);
      NoneStoppedUnlessStop(front, session);
      var s := Play(INITIAL, front);
      assert last in events;
      OutputStep(s, last);
      if last.Created? && last.generation in s.creating { assert Unstopped(s, session, last.generation); }
    }
  }

  predicate Stopping(s: State, g: Generation) {
    g in s.intents && s.intents[g].stopping
  }

  lemma StopStillStopping(s: State, session: SessionId, orphan: bool, g: Generation)
    requires Stopping(s, g)
    ensures Stopping(StopStep(s, session, orphan), g)
  {
    StopMarks(s, session, orphan);
  }

  lemma StepStillStopping(s: State, e: Event, g: Generation)
    requires Stopping(s, g)
    ensures Stopping(Step(s, e), g)
  {
    match e
    case Run(_, _, _, _, _) =>
    case Reattach(_, _, _, _, _) =>
    case Stop(session, orphan) => StopStillStopping(s, session, orphan, g);
    case DetachOrStop(session) => StopStillStopping(s, session, false, g);
    case _ => RestLeavesStops(s, e);
  }

  lemma NextStillStopping(events: seq<Event>, last: Event, g: Generation)
    requires Stopping(Play(INITIAL, events), g)
    ensures Stopping(Play(INITIAL, events + [last]), g)
  {
    PlayNext(events, last);
    StepStillStopping(Play(INITIAL, events), last, g);
  }

  lemma {:induction false} StillStopping(events: seq<Event>, more: seq<Event>, g: Generation)
    requires Stopping(Play(INITIAL, events), g)
    ensures Stopping(Play(INITIAL, events + more), g)
  {
    if more == [] {
      assert events + more == events;
    } else {
      var front, last := more[..|more| - 1], more[|more| - 1];
      StillStopping(events, front, g);
      NextStillStopping(events + front, last, g);
      assert events + more == (events + front) + [last];
    }
  }

  /** Stopping a session whose launch is being created reaches that launch. */
  lemma StopReachesCreation(s: State, session: SessionId, orphan: bool)
    requires Inv(s) && session in s.generations && s.generations[session] in s.creating
    ensures Stopping(StopStep(s, session, orphan), s.generations[session])
  {
    assert CurrentFits(s, session);
  }

  /** A launch that was stopped while its tmux session was being created: whatever happens
      in between, if it is still the session's launch when the creation succeeds, the tmux
      session is killed then, and nothing is attached or reported. */
  lemma StoppedCreationIsKilled(events: seq<Event>, session: SessionId, orphan: bool, more: seq<Event>, p: Pty, spawns: bool)
    requires session in Play(INITIAL, events).generations
    requires Play(INITIAL, events).generations[session] in Play(INITIAL, events).creating
    requires var t := Play(INITIAL, events + [Stop(session, orphan)] + more);
      var g := Play(INITIAL, events).generations[session];
      Current(t, session, g) && g in t.creating && p !in t.clients
    ensures var g := Play(INITIAL, events).generations[session];
      var t := Play(INITIAL, events + [Stop(session, orphan)] + more);
      var u := Play(INITIAL, events + [Stop(session, orphan)] + more + [Created(g, true, p, spawns)]);
      && u.kills == t.kills + [session] && u.emitted == t.emitted
      && session !in u.generations && session !in u.runtimes && session !in u.active && u.clients == t.clients
  {
    var s := Play(INITIAL, events);
    var g := s.generations[session];
    var stopped := events + [Stop(session, orphan)];
    PlayKeepsInv(events);
    StopReachesCreation(s, session, orphan);
    PlayNext(events, Stop(session, orphan));
    StillStopping(stopped, more, g);
    PlayKeepsInv(stopped + more);
    PlayNext(stopped + more, Created(g, true, p, spawns));
    assert CurrentFits(Play(INITIAL, stopped + more), session);
  }

  // ---------- the class ----------

  class Runner {
    var active: map<SessionId, Pty>
    var runtimes: map<SessionId, Runtime>
    var generations: map<SessionId, Generation>
    var lastSizes: map<SessionId, nat>
    var intents: map<Generation, Intent>
    var clients: map<Pty, Client>
    var creating: set<Generation>
    var timers: set<(SessionId, Generation, Pty)>
    ghost var emitted: seq<Emission>
    ghost var output: seq<Pty>
    ghost var kills: seq<SessionId>

    ghost function Now(): State
      reads this
    {
      State(active, runtimes, generations, lastSizes, intents, clients, creating, timers, emitted, output, kills)
    }

    constructor ()
      ensures Now() == INITIAL
    {
      active, runtimes, generations, lastSizes := map[], map[], map[], map[];
      intents, clients, creating, timers, emitted, output, kills := map[], map[], {}, {}, [], [], [];
    }

    /** Report the end of a launch. The listeners are not part of this model. */
    method Report(g: Generation, session: SessionId, outcome: Outcome)
      modifies this`emitted
      ensures emitted == old(emitted) + [Emission(g, session, outcome)]
    {
      emitted := emitted + [Emission(g, session, outcome)];
    }

    method AttachTmux(session: SessionId, g: Generation, p: Pty, spawns: bool)
      requires p !in clients
      modifies this
      ensures Now() == Attach(old(Now()), session, g, p, spawns)
    {
      if session !in generations || generations[session] != g { return; }
      if !spawns {
        generations := generations - {session};
        runtimes := runtimes - {session};
        Report(g, session, Failed);
        return;
      }
      active := active[session := p];
      runtimes := runtimes[session := Tmux];
      clients := clients[p := Client(session, g, Tmux, false)];
    }

    /** runDirect, as far as it is not about the terminal. */
    method SpawnDirect(session: SessionId, g: Generation, p: Pty, spawns: bool)
      modifies this
      ensures Now() == if !spawns then Emit(Drop(old(Now()), session), g, session, Failed)
                       else old(Now()).(active := old(active)[session := p], runtimes := old(runtimes)[session := Direct],
                                        clients := old(clients)[p := Client(session, g, Direct, false)])
    {
      if !spawns {
        generations := generations - {session};
        runtimes := runtimes - {session};
        Report(g, session, Failed);
        return;
      }
      active := active[session := p];
      runtimes := runtimes[session := Direct];
      clients := clients[p := Client(session, g, Direct, false)];
    }

    /** run(), with the launch object and, for a direct launch, the PTY it creates. */
    method Start(session: SessionId, g: Generation, p: Pty, tmux: bool, spawns: bool)
      requires g !in intents && p !in clients
      modifies this
      ensures Now() == Step(old(Now()), Run(session, g, p, tmux, spawns))
    {
      intents := intents[g := Intent(session, false, false, None)];
      generations := generations[session := g];
      active := active - {session};
      lastSizes := lastSizes - {session};
      assert Now() == Launch(old(Now()), session, g).(active := active, lastSizes := lastSizes);
      if tmux {
        // Registered before the asynchronous creation so that stop() can cancel it.
        runtimes := runtimes[session := Tmux];
        creating := creating + {g};
      } else {
        SpawnDirect(session, g, p, spawns);
      }
    }

    /** The rest of runTmux once the tmux session was created, or was not. */
    method TmuxCreated(g: Generation, ok: bool, p: Pty, spawns: bool)
      requires g in creating && g in intents && p !in clients
      modifies this
      ensures Now() == Step(old(Now()), Created(g, ok, p, spawns))
    {
      creating := creating - {g};
      var session := intents[g].session;
      if session !in generations || generations[session] != g { return; }
      if !ok || intents[g].stopping {
        generations := generations - {session};
        runtimes := runtimes - {session};
        if ok {
          KillTmux(session);
        } else if !intents[g].stopping {
          Report(g, session, Failed);
        }
        return;
      }
      AttachTmux(session, g, p, spawns);
    }

    method ReattachSession(session: SessionId, g: Generation, p: Pty, hasTmux: bool, spawns: bool) returns (attached: bool)
      requires g !in intents && p !in clients
      modifies this
      ensures Now() == Step(old(Now()), Reattach(session, g, p, hasTmux, spawns))
      ensures attached <==> old(session in active) || hasTmux
    {
      if session in active { return true; }
      if !hasTmux { return false; }
      intents := intents[g := Intent(session, false, false, None)];
      generations := generations[session := g];
      AttachTmux(session, g, p, spawns);
      return true;
    }

    /** killTmuxSessionLogged. What tmux answers is not part of this model. */
    method KillTmux(session: SessionId)
      modifies this`kills
      ensures kills == old(kills) + [session]
    {
      kills := kills + [session];
    }

    /** `orphan`: a tmux session of that name exists. */
    method StopSession(session: SessionId, orphan: bool) returns (stopped: bool)
      requires forall x <- generations :: generations[x] in intents
      modifies this`intents, this`timers, this`kills
      ensures Now() == Step(old(Now()), Stop(session, orphan))
      ensures stopped <==> session in active || orphan || (session in runtimes && runtimes[session] == Tmux)
    {
      var isTmux := session in runtimes && runtimes[session] == Tmux;
      if isTmux {
        if session in generations {
          var g := generations[session];
          intents := intents[g := intents[g].(stopping := true)];
        }
        KillTmux(session);
      }
      if session !in active {
        if !isTmux && orphan {
          KillTmux(session);
          return true;
        }
        return isTmux;
      }
      if session in generations {
        var g := generations[session];
        intents := intents[g := intents[g].(stopping := true)];
        timers := timers + {(session, g, active[session])};
      }
      return true;
    }

    method StopTimedOut(session: SessionId, g: Generation, p: Pty)
      requires (session, g, p) in timers && p in clients && g in intents
      modifies this
      ensures Now() == Step(old(Now()), StopTimeout(session, g, p))
    {
      timers := timers - {(session, g, p)};
      if clients[p].exited { return; }
      if session in generations && generations[session] == g && session in active && active[session] == p {
        intents := intents[g := intents[g].(forced := Some(p))];
        active := active - {session};
      }
    }

    /** One round of stopAll's loop. */
    method StopOrDetach(session: SessionId)
      requires forall x <- generations :: generations[x] in intents
      requires session in active
      modifies this
      ensures Now() == Step(old(Now()), DetachOrStop(session))
    {
      if session in runtimes && runtimes[session] == Tmux {
        // Detach only: the tmux session keeps running.
        if session in generations {
          var g := generations[session];
          intents := intents[g := intents[g].(detachOnly := true)];
        }
      } else {
        var _ := StopSession(session, false);
      }
    }

    method OnData(p: Pty)
      requires p in clients
      modifies this`output
      ensures Now() == Step(old(Now()), Data(p))
    {
      var c := clients[p];
      if c.session in generations && generations[c.session] == c.generation && c.session in active && active[c.session] == p {
        output := output + [p];
      }
    }

    method TmuxClientExited(c: Client, hasTmux: bool, code: Option<int>, next: Pty, spawns: bool)
      requires c.generation in intents && next !in clients
      modifies this
      ensures Now() == TmuxExit(old(Now()), c, hasTmux, code, next, spawns)
    {
      var intent := intents[c.generation];
      if intent.detachOnly { generations := generations - {c.session}; return; }
      if intent.stopping {
        generations := generations - {c.session};
        lastSizes := lastSizes - {c.session};
        return;
      }
      if hasTmux {
        // The client detached but the command still runs: attach again.
        AttachTmux(c.session, c.generation, next, spawns);
        return;
      }
      lastSizes := lastSizes - {c.session};
      generations := generations - {c.session};
      Report(c.generation, c.session, if code == Some(0) then Complete else Failed);
    }

    method DirectProcessExited(c: Client, code: Option<int>)
      requires c.generation in intents
      modifies this
      ensures Now() == DirectExit(old(Now()), c, code)
    {
      lastSizes := lastSizes - {c.session};
      generations := generations - {c.session};
      if intents[c.generation].stopping { return; }
      Report(c.generation, c.session, if code == Some(0) || code.None? then Complete else Failed);
    }

    /** An exit that still counts: nothing is attached any more, and then it depends. */
    method ExitCounted(c: Client, hasTmux: bool, code: Option<int>, next: Pty, spawns: bool)
      requires c.generation in intents && next !in clients
      modifies this
      ensures var u := old(Now()).(active := old(active) - {c.session}, runtimes := old(runtimes) - {c.session});
              Now() == if c.runtime == Tmux then TmuxExit(u, c, hasTmux, code, next, spawns) else DirectExit(u, c, code)
    {
      active := active - {c.session};
      runtimes := runtimes - {c.session};
      if c.runtime == Tmux {
        TmuxClientExited(c, hasTmux, code, next, spawns);
      } else {
        DirectProcessExited(c, code);
      }
    }

    /** The exit callback of an attach client or of a direct process. */
    method OnExit(p: Pty, hasTmux: bool, code: Option<int>, next: Pty, spawns: bool)
      requires p in clients && !clients[p].exited && next !in clients
      requires clients[p].generation in intents
      modifies this
      ensures Now() == Step(old(Now()), Exit(p, hasTmux, code, next, spawns))
    {
      var c := clients[p];
      clients := clients[p := c.(exited := true)];
      var intent := intents[c.generation];
      ghost var t := Now();
      if c.session !in generations || generations[c.session] != c.generation {
        assert !Counts(t, c, p);
        return;
      }
      if !(c.session in active && active[c.session] == p)
        && !(intent.stopping && intent.forced == Some(p) && c.session !in active) {
        assert !Counts(t, c, p);
        return;
      }
      assert Counts(t, c, p);
      ExitCounted(c, hasTmux, code, next, spawns);
    }
  }
}

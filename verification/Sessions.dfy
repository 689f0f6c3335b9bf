/** The sessions of a bridge: trees of one level, the links to pull requests, and names.

    A session can be moved under another one, and a started session has the top of its
    starter's tree as parent. Updates are serialised for each session, so two of them can
    pass each other. */
module Sessions {
  import opened Results

  type Id = nat

  /** A URL as spelled, with the form URLs are compared in (its lower case). */
  datatype Url = Url(key: nat, spelling: nat)

  datatype Session = Session(name: string, bridge: nat, parent: Option<Id>, url: Option<Url>, linkId: Option<nat>)

  type Sessions = map<Id, Session>

  // ---------- updating a session ----------

  datatype ParentInput = KeepParent | ClearParent | NotText | Under(id: Id)

  /** `Set(None)`: not the address of a pull request. */
  datatype UrlInput = KeepUrl | ClearUrl | Set(url: Option<Url>)

  datatype Input = Input(name: Option<string>, parent: ParentInput, url: UrlInput)

  datatype Error =
    | NotFound | InvalidName | InvalidUrl | InvalidParent | OwnParent | ParentNotFound | OtherBridge
    | OwnDescendant | HasChildren

  /** The session at the top of a session's tree. */
  function Top(sessions: Sessions, id: Id): Id
    requires id in sessions
  {
    if sessions[id].parent.Some? then sessions[id].parent.value else id
  }

  predicate HasChild(sessions: Sessions, id: Id) {
    exists c :: c in sessions && sessions[c].parent == Some(id)
  }

  /** The parent an update asks for, or why it may not have it. */
  function CheckParent(sessions: Sessions, id: Id, input: ParentInput): Result<Option<Id>, Error>
    requires id in sessions
  {
    match input
    case KeepParent => Success(sessions[id].parent)
    case ClearParent => Success(None)
    case NotText => Failure(InvalidParent)
    case Under(p) =>
      if p == id then Failure(OwnParent)
      else if p !in sessions then Failure(ParentNotFound)
      else if sessions[p].bridge != sessions[id].bridge then Failure(OtherBridge)
      else if Top(sessions, p) == id then Failure(OwnDescendant)
      else if HasChild(sessions, id) then Failure(HasChildren)
      else Success(Some(Top(sessions, p)))
  }

  function Relinked(s: Session, input: UrlInput, newLink: nat): Session {
    match input
    case KeepUrl => s
    case ClearUrl => s.(url := None, linkId := None)
    case Set(None) => s
    case Set(Some(url)) =>
      var same := s.url.Some? && s.url.value.key == url.key && s.linkId.Some?;
      s.(url := Some(url), linkId := if same then s.linkId else Some(newLink))
  }

  /** Everything the update is refused for is checked before anything is changed. */
  function Check(sessions: Sessions, id: Id, input: Input): Result<Option<Id>, Error> {
    if id !in sessions then Failure(NotFound)
    else if input.name == Some("") then Failure(InvalidName)
    else if input.url == Set(None) then Failure(InvalidUrl)
    else CheckParent(sessions, id, input.parent)
  }

  function Changed(s: Session, input: Input, parent: Option<Id>, newLink: nat): Session {
    var named := if input.name.Some? then s.(name := input.name.value) else s;
    Relinked(if input.parent.KeepParent? then named else named.(parent := parent), input.url, newLink)
  }

  function Update(sessions: Sessions, id: Id, input: Input, newLink: nat): Sessions {
    var checked := Check(sessions, id, input);
    if checked.Failure? then sessions else sessions[id := Changed(sessions[id], input, checked.value, newLink)]
  }

  /** A new session; `Failure` when the parent it names does not exist. */
  function Create(sessions: Sessions, id: Id, name: string, bridge: nat, parent: Option<Id>): Result<Sessions, Error> {
    if parent.None? then Success(sessions[id := Session(name, bridge, None, None, None)])
    else if parent.value !in sessions then Failure(ParentNotFound)
    else Success(sessions[id := Session(name, bridge, Some(Top(sessions, parent.value)), None, None)])
  }

  // ---------- trees of one level ----------

  /** A parent is another session, and has no parent itself, if it is still there. */
  predicate Flat(sessions: Sessions, id: Id)
    requires id in sessions
  {
    var p := sessions[id].parent;
    p.Some? ==> p.value != id && (p.value in sessions ==> sessions[p.value].parent.None?)
  }

  ghost predicate OneLevel(sessions: Sessions) {
    forall id :: id in sessions ==> Flat(sessions, id)
  }

  /** An id no session has, or has had as its parent. */
  ghost predicate Unused(sessions: Sessions, id: Id) {
    id !in sessions && !HasChild(sessions, id)
  }

  lemma TopIsTop(sessions: Sessions, id: Id)
    requires OneLevel(sessions) && id in sessions
    ensures var t := Top(sessions, id); t in sessions ==> Top(sessions, t) == t
  {
    assert Flat(sessions, id);
  }

  /** Saving a session, under whatever parent, into sessions that are one level deep: when
      they stay so. This is what the checks of an update establish, as long as nothing else
      is saved between the checks and the save. */
  lemma SavingKeepsOneLevel(sessions: Sessions, id: Id, s: Session)
    requires OneLevel(sessions)
    ensures OneLevel(sessions[id := s]) <==>
            || (s.parent.None?)
            || (s.parent.value != id && (s.parent.value in sessions ==> sessions[s.parent.value].parent.None?)
                && !ChildOtherThan(sessions, id))
  {
    var saved := sessions[id := s];
    if s.parent.None? || (Flat(saved, id) && !ChildOtherThan(sessions, id)) {
      forall c | c in saved ensures Flat(saved, c) {
        if c != id { assert Flat(sessions, c); }
      }
    } else {
      assert Flat(saved, id) ==> ChildOtherThan(sessions, id);
      if ChildOtherThan(sessions, id) {
        var c :| c in sessions && c != id && sessions[c].parent == Some(id);
        assert !Flat(saved, c);
      }
    }
  }

  predicate ChildOtherThan(sessions: Sessions, id: Id) {
    exists c :: c in sessions && c != id && sessions[c].parent == Some(id)
  }

  lemma UpdateKeepsOneLevel(sessions: Sessions, id: Id, input: Input, newLink: nat)
    requires OneLevel(sessions)
    ensures OneLevel(Update(sessions, id, input, newLink))
  {
    var checked := Check(sessions, id, input);
    if checked.Success? {
      var s := Changed(sessions[id], input, checked.value, newLink);
      SavingKeepsOneLevel(sessions, id, s);
      assert Flat(sessions, id);
      if input.parent.Under? {
        TopIsTop(sessions, input.parent.id);
        assert s.parent == checked.value;
        assert ChildOtherThan(sessions, id) ==> HasChild(sessions, id);
      } else if s.parent.Some? {
        assert !ChildOtherThan(sessions, id);
      }
    }
  }

  /** An update that moves a session puts it into the tree of the session it names. */
  lemma JoinsTheTree(sessions: Sessions, id: Id, input: Input, newLink: nat)
    requires OneLevel(sessions) && input.parent.Under? && Check(sessions, id, input).Success?
    ensures var after := Update(sessions, id, input, newLink);
            var p := input.parent.id;
            && p in after && Top(after, id) == Top(sessions, p) == Top(after, p)
            && after[id].parent != Some(id)
            && forall other :: other in sessions && other != id ==> other in after && after[other] == sessions[other]
  {
  }

  /** A link to a pull request keeps its id exactly while the address stays the same but
      for case; `newLink` is not in use. */
  lemma LinkFollowsAddress(sessions: Sessions, id: Id, input: Input, newLink: nat)
    requires Check(sessions, id, input).Success? && sessions[id].linkId != Some(newLink)
    requires sessions[id].url.Some? <==> sessions[id].linkId.Some?
    ensures var before := sessions[id];
            var after := Update(sessions, id, input, newLink)[id];
            && (after.url.Some? <==> after.linkId.Some?)
            && (before.linkId.Some? && after.linkId == before.linkId <==>
                before.url.Some? && after.url.Some? && after.url.value.key == before.url.value.key)
  {
  }

  /** Whether an update may be made: the session exists, name and address are proper, and
      the session it moves under is another one of the same bridge, not below it, while it
      has no children itself. */
  predicate Allowed(sessions: Sessions, id: Id, input: Input) {
    && id in sessions && input.name != Some("") && input.url != Set(None) && !input.parent.NotText?
    && (input.parent.Under? ==>
          var p := input.parent.id;
          && p in sessions && p != id && sessions[p].bridge == sessions[id].bridge
          && sessions[p].parent != Some(id) && !HasChild(sessions, id))
  }

  /** What was asked for, and nothing else, is different. */
  predicate CarriedOut(sessions: Sessions, id: Id, input: Input, after: Session)
    requires id in sessions
  {
    var before := sessions[id];
    && after.bridge == before.bridge
    && after.name == (if input.name.Some? then input.name.value else before.name)
    && (input.parent.KeepParent? ==> after.parent == before.parent)
    && (input.parent.ClearParent? ==> after.parent.None?)
    && (input.parent.Under? && input.parent.id in sessions ==>
          after.parent == if sessions[input.parent.id].parent.Some? then sessions[input.parent.id].parent else Some(input.parent.id))
    && (input.url.KeepUrl? ==> after.url == before.url && after.linkId == before.linkId)
    && (input.url.ClearUrl? ==> after.url.None? && after.linkId.None?)
    && (input.url.Set? ==> after.url == input.url.url && after.linkId.Some?)
  }

  lemma {:induction false} UpdateCarriesOut(sessions: Sessions, id: Id, input: Input, newLink: nat)
    ensures Check(sessions, id, input).Success? <==> Allowed(sessions, id, input)
    ensures Allowed(sessions, id, input) ==> CarriedOut(sessions, id, input, Update(sessions, id, input, newLink)[id])
  {
  }

  // ---------- all runs, one update at a time ----------

  datatype Event =
    | Start(id: Id, name: string, bridge: nat, parent: Option<Id>)
    | Change(id: Id, input: Input, newLink: nat)
    | Remove(id: Id)

  ghost function Step(sessions: Sessions, e: Event): Sessions {
    match e
    case Start(id, name, bridge, parent) =>
      if !Unused(sessions, id) || parent == Some(id) then sessions
      else
        var r := Create(sessions, id, name, bridge, parent);
        if r.Success? then r.value else sessions
    case Change(id, input, newLink) => Update(sessions, id, input, newLink)
    case Remove(id) => sessions - {id}
  }

  /** A session that is started under an unused id is there, at the top or below the top of
      the tree it is started from; with an unknown parent nothing is started. */
  lemma {:induction false} StartedIs(sessions: Sessions, id: Id, name: string, bridge: nat, parent: Option<Id>)
    requires Unused(sessions, id) && parent != Some(id)
    ensures Step(sessions, Start(id, name, bridge, parent)) ==
      match parent
      case None => sessions[id := Session(name, bridge, None, None, None)]
      case Some(p) =>
        if p !in sessions then sessions
        else sessions[id := Session(name, bridge, if sessions[p].parent.Some? then sessions[p].parent else Some(p), None, None)]
  {
  }

  ghost function Run(events: seq<Event>): Sessions {
    if events == [] then map[] else Step(Run(events[..|events| - 1]), events[|events| - 1])
  }

  lemma StepKeepsOneLevel(sessions: Sessions, e: Event)
    requires OneLevel(sessions)
    ensures OneLevel(Step(sessions, e))
  {
    match e
    case Start(id, name, bridge, parent) =>
      if Step(sessions, e) != sessions {
        var s := Step(sessions, e)[id];
        SavingKeepsOneLevel(sessions, id, s);
        if parent.Some? {
          assert Flat(sessions, parent.value);
          assert !HasChild(sessions, id) && s.parent != Some(id);
          TopIsTop(sessions, parent.value);
          assert ChildOtherThan(sessions, id) ==> HasChild(sessions, id);
        }
      }
    case Change(id, input, newLink) => UpdateKeepsOneLevel(sessions, id, input, newLink);
    case Remove(id) =>
      var left := sessions - {id};
      forall c | c in left ensures Flat(left, c) {
        assert Flat(sessions, c);
      }
  }

  /** Sessions never nest deeper than one level, and none is its own ancestor. */
  lemma {:induction false} TreesStayFlat(events: seq<Event>)
    ensures OneLevel(Run(events))
  {
    if events != [] {
      TreesStayFlat(events[..|events| - 1]);
      StepKeepsOneLevel(Run(events[..|events| - 1]), events[|events| - 1]);
    }
  }

  /** The lock is one per session, so two sessions can be checked before either is saved:
      two top-level sessions moved under each other then become each other's parents. */
  lemma CrossingMovesNest() returns (sessions: Sessions, a: Id, b: Id)
    ensures OneLevel(sessions) && a != b
    ensures Check(sessions, a, Input(None, Under(b), KeepUrl)) == Success(Some(b))
    ensures Check(sessions, b, Input(None, Under(a), KeepUrl)) == Success(Some(a))
    ensures !OneLevel(sessions[a := sessions[a].(parent := Some(b))][b := sessions[b].(parent := Some(a))])
  {
    a, b := 0, 1;
    sessions := map[0 := Session("a", 0, None, None, None), 1 := Session("b", 0, None, None, None)];
    var crossed := sessions[0 := sessions[0].(parent := Some(1))][1 := sessions[1].(parent := Some(0))];
    assert !HasChild(sessions, 0) && !HasChild(sessions, 1);
    assert OneLevel(sessions);
    assert Check(sessions, 0, Input(None, Under(1), KeepUrl)) == Success(Some(1));
    assert Check(sessions, 1, Input(None, Under(0), KeepUrl)) == Success(Some(0));
    assert !Flat(crossed, 0);
  }

  class Controller {
    var sessions: Sessions

    constructor (sessions: Sessions)
      ensures this.sessions == sessions
    {
      this.sessions := sessions;
    }

    /** updateMetadata: refused without a trace, or applied as a whole. */
    method UpdateMetadata(id: Id, input: Input, newLink: nat) returns (r: Result<Session, Error>)
      modifies this
      ensures sessions == Update(old(sessions), id, input, newLink)
      ensures r == if Check(old(sessions), id, input).Failure? then Failure(Check(old(sessions), id, input).error)
                   else Success(sessions[id])
      ensures old(OneLevel(sessions)) ==> OneLevel(sessions)
      ensures r.Success? <==> Allowed(old(sessions), id, input)
      ensures r.Failure? ==> sessions == old(sessions)
      ensures r.Success? ==>
                && CarriedOut(old(sessions), id, input, r.value)
                && sessions == old(sessions)[id := r.value]
    {
      UpdateCarriesOut(sessions, id, input, newLink);
      if id !in sessions { return Failure(NotFound); }
      var session := sessions[id];
      if input.name == Some("") { return Failure(InvalidName); }
      if input.url == Set(None) { return Failure(InvalidUrl); }
      var parent: Option<Id> := None;
      match input.parent {
      case KeepParent =>
      case ClearParent =>
      case NotText => return Failure(InvalidParent);
      case Under(raw) =>
        if raw == id { return Failure(OwnParent); }
        if raw !in sessions { return Failure(ParentNotFound); }
        var proposed := sessions[raw];
        if proposed.bridge != session.bridge { return Failure(OtherBridge); }
        parent := if proposed.parent.Some? then proposed.parent else Some(raw);
        if parent == Some(id) { return Failure(OwnDescendant); }
        if exists c <- sessions.Keys :: sessions[c].parent == Some(id) { return Failure(HasChildren); }
      }
      assert !input.parent.KeepParent? ==> Check(sessions, id, input) == Success(parent);
      if input.name.Some? { session := session.(name := input.name.value); }
      if !input.parent.KeepParent? { session := session.(parent := parent); }
      match input.url {
      case KeepUrl =>
      case ClearUrl => session := session.(url := None, linkId := None);
      case Set(url) =>
        if session.url.None? || session.url.value.key != url.value.key || session.linkId.None? {
          session := session.(linkId := Some(newLink));
        }
        session := session.(url := url);
      }
      if OneLevel(sessions) { UpdateKeepsOneLevel(sessions, id, input, newLink); }
      sessions := sessions[id := session];
      return Success(session);
    }
  }
}

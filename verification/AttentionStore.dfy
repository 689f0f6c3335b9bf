/** The store's operations as they run under a session's lock: they load the ledger,
    change its items in place, prune and save. Each is proved to do what the
    ledger's transition function says. */
module AttentionStore {
  import opened Results
  import opened AttentionLedger
  import opened AttentionCursor
  import opened AttentionOutcomes

  class Store {
    const retention: nat
    var epoch: nat
    var sequence: nat
    var prunedThrough: nat
    var events: seq<Item>

    function Contents(): Ledger
      reads this
    {
      Ledger(epoch, sequence, prunedThrough, events)
    }

    constructor (retention: nat)
      ensures Contents() == EMPTY && this.retention == retention
    {
      this.retention := retention;
      epoch, sequence, prunedThrough, events := 0, 0, 0, [];
    }

    /** A loop that resolves what is selected and collects the ids. */
    method ResolvePass(s: Selection, c: Closing) returns (resolved: set<Id>)
      modifies this`events
      ensures events == CloseAll(old(events), s, c)
      ensures resolved == Newly(old(events), s)
    {
      ghost var before := events;
      resolved := {};
      for i := 0 to |events|
        invariant |events| == |before|
        invariant forall k :: 0 <= k < i ==> events[k] == Close(before[k], s, c)
        invariant forall k :: i <= k < |events| ==> events[k] == before[k]
        invariant resolved == Newly(before[..i], s)
      {
        assert before[..i + 1] == before[..i] + [before[i]];
        if events[i].closing.None? && Selected(s, events[i]) {
          resolved := resolved + {events[i].id};
          events := events[i := events[i].(closing := Some(c))];
        }
      }
      assert before[..|before|] == before;
    }

    method FindExisting(a: Attention) returns (r: Option<nat>)
      ensures r == Find(events, a)
    {
      r := None;
      for i := 0 to |events|
        invariant r == Find(events[..i], a)
      {
        assert events[..i + 1][..i] == events[..i];
        if r.None? && Matches(a, events[i]) { r := Some(i); }
      }
      assert events[..|events|] == events;
    }

    /** From the newest item backwards: keep what is open or protected and the first
        `retention` others; the mark is the newest item that goes. */
    method PruneItems(protect: set<Id>)
      modifies this`events, this`prunedThrough
      ensures Contents() == Prune(old(Contents()), protect, retention)
    {
      ghost var before := events;
      var kept: seq<Item> := [];
      var budget := retention;
      var mark := 0;
      var i := |events|;
      assert before[..i] == before;
      while i > 0
        invariant 0 <= i <= |before| && events == before
        invariant Keep(before, protect, retention) == Keep(before[..i], protect, budget) + kept
        invariant LastDropped(before, protect, retention) == Max(LastDropped(before[..i], protect, budget), mark)
      {
        i := i - 1;
        var e := events[i];
        assert before[..i + 1][..i] == before[..i];
        if e.closing.None? || e.id in protect {
          kept := [e] + kept;
        } else if budget > 0 {
          budget := budget - 1;
          kept := [e] + kept;
        } else {
          mark := Max(mark, e.sequence);
        }
      }
      prunedThrough := Max(prunedThrough, mark);
      events := kept;
    }

    /** The resolving part of a hook event. */
    method ObservePasses(o: Observation, at: nat) returns (resolvedIds: set<Id>)
      modifies this`events
      ensures events == AfterPasses(old(Contents()), o, at)
      ensures resolvedIds == RecordResolves(old(Contents()), o, at)
    {
      resolvedIds := {};
      if o.resolve.Some? {
        var s := if o.resolve == Some(ElicitationComplete) then Dialogs else Everything;
        resolvedIds := ResolvePass(s, Closing(o.resolve.value, at));
      }
      assert events == AfterFirstPass(old(Contents()), o, at);
      if o.toolComplete.Some? {
        var more := ResolvePass(AskCall(o.toolComplete.value), Closing(ToolComplete, at));
        resolvedIds := resolvedIds + more;
      }
    }

    /** The rest of recordDetailed: find or add the request, prune, and say whether
        waiting polls must be woken. */
    method RecordHook(o: Observation, at: nat) returns (created: bool, wake: bool)
      modifies this
      ensures Contents() == Apply(old(Contents()), Record(o, at), retention)
      ensures created <==> sequence > old(sequence)
      ensures wake <==> RecordResolves(old(Contents()), o, at) != {}
    {
      var resolvedIds := ObservePasses(o, at);
      created := false;
      if o.attention.Some? {
        var a := o.attention.value;
        var existing := FindExisting(a);
        if existing.Some? {
          events := events[existing.value := Touch(events[existing.value], a)];
        } else {
          sequence := sequence + 1;
          events := events + [NewItem(sequence, a)];
          created := true;
        }
      }
      wake := resolvedIds != {};
      PruneItems(resolvedIds);
    }

    /** recordDetailed: what the event reports as over is closed, and its request is stored or
        counted; waiting polls are woken if an open item was closed. */
    method Observe(o: Observation, at: nat) returns (created: bool, wake: bool)
      modifies this
      ensures Contents() == Apply(old(Contents()), Record(o, at), retention)
      ensures created <==> sequence > old(sequence)
      ensures wake <==> SettlesAny(o, old(events))
      ensures Inv(old(Contents())) ==> HookRecorded(old(Contents()), Contents(), o, at)
    {
      ghost var before := Contents();
      created, wake := RecordHook(o, at);
      WakesIfSettled(before, o, at);
      if Inv(before) { RecordOutcome(before, o, at, retention); }
    }

    method FindItem(id: Id) returns (r: Option<Item>)
      ensures r == ById(events, id)
    {
      r := None;
      for i := 0 to |events|
        invariant r == ById(events[..i], id)
      {
        assert events[..i + 1][..i] == events[..i];
        if r.None? && events[i].id == id { r := Some(events[i]); }
      }
      assert events[..|events|] == events;
    }

    /** Dismiss the displayed request and the plain requests it supersedes. */
    method ResolveExplicitThrough(id: Id, at: nat) returns (r: Result<(), Refusal>)
      modifies this
      ensures Contents() == Apply(old(Contents()), ResolveThrough(id, at), retention)
      ensures r.Failure? <==>
                || ById(old(events), id).None?
                || !(var e := ById(old(events), id).value; e.kind == AgentNeedsInput || (e.kind == AskUser && e.prompt.Some?))
      ensures r.Failure? ==> Contents() == old(Contents())
      ensures r.Success? && Inv(old(Contents())) ==>
                DismissedThrough(old(Contents()), Contents(), ById(old(events), id).value, at)
    {
      ghost var before := Contents();
      var displayed := FindItem(id);
      if displayed.None? || !Explicit(displayed.value) { return Failure(Unknown); }
      var resolvedIds := ResolvePass(Through(displayed.value), Closing(Manual, at));
      PruneItems(resolvedIds);
      if Inv(before) { DismissOutcome(before, id, at, retention); }
      return Success(());
    }

    /** The loop that stores the answer on the item. */
    method AnswerPass(id: Id, answers: nat, at: nat)
      modifies this`events
      ensures events == AnswerAll(old(events), id, answers, at)
    {
      ghost var before := events;
      for i := 0 to |events|
        invariant |events| == |before|
        invariant forall k :: 0 <= k < i ==> events[k] == AnswerItem(before[k], id, answers, at)
        invariant forall k :: i <= k < |events| ==> events[k] == before[k]
      {
        if events[i].id == id {
          events := events[i := events[i].(answer := Some(answers), closing := Some(Closing(Answered, at)))];
        }
      }
    }

    /** The part of answer() after its checks. */
    method StoreAnswer(target: Item, answers: nat, at: nat)
      modifies this`events, this`prunedThrough
      ensures Contents() == AnsweredLedger(old(Contents()), target, answers, at, retention)
    {
      AnswerPass(target.id, answers, at);
      var superseded := ResolvePass(OlderPlain(target.sequence), Closing(Manual, at));
      PruneItems({target.id} + superseded);
    }

    method AnswerRequest(id: Id, answers: Option<nat>, waiting: bool, at: nat) returns (r: Result<(), Refusal>)
      modifies this
      ensures Contents() == Apply(old(Contents()), Answer(id, answers, waiting, at), retention)
      ensures r == (match AnswerRefusal(old(Contents()), id, answers, waiting)
                    case None => Success(())
                    case Some(why) => Failure(why))
      ensures AnswerAllowed(old(Contents()), id, answers, waiting, r)
      ensures r.Failure? ==> Contents() == old(Contents())
      ensures r.Success? && Inv(old(Contents())) ==>
                AnswerStored(old(Contents()), Contents(), ById(old(events), id).value, answers.value, at)
    {
      ghost var before := Contents();
      RefusalIsAllowed(before, id, answers, waiting);
      var found := FindItem(id);
      if found.None? { return Failure(NotFound); }
      var event := found.value;
      if event.prompt.None? { return Failure(NotAnswerable); }
      if event.closing.Some? { return Failure(AlreadyResolved); }
      if answers.None? { return Failure(InvalidAnswer); }
      if event.prompt.value.channel == Hook && !waiting { return Failure(WaiterGone); }
      StoreAnswer(event, answers.value, at);
      if Inv(before) { AnswerOutcome(before, event, answers.value, at, retention); }
      return Success(());
    }

    method AckPass(ids: set<Id>, at: nat)
      modifies this`events
      ensures events == AckAll(old(events), ids, at)
    {
      ghost var before := events;
      for i := 0 to |events|
        invariant |events| == |before|
        invariant forall k :: 0 <= k < i ==> events[k] == AckItem(before[k], ids, at)
        invariant forall k :: i <= k < |events| ==> events[k] == before[k]
      {
        if events[i].id in ids && events[i].acknowledged.None? {
          events := events[i := events[i].(acknowledged := Some(at))];
        }
      }
    }

    method CloseItems(ids: set<Id>, at: nat)
      modifies this`events, this`prunedThrough
      ensures Contents() == Prune(old(Contents()).(events := CloseAll(old(events), Chosen(ids), Closing(Manual, at))), ids, retention)
      ensures AllClosed(old(Contents()), Contents(), ids, at)
    {
      ghost var before := Contents();
      var _ := ResolvePass(Chosen(ids), Closing(Manual, at));
      PruneItems(ids);
      CloseOutcome(before, ids, at, retention);
    }

    method AcknowledgeItems(ids: set<Id>, at: nat)
      modifies this`events, this`prunedThrough
      ensures Contents() == Prune(old(Contents()).(events := AckAll(old(events), ids, at)), {}, retention)
      ensures AllAcknowledged(old(Contents()), Contents(), ids, at)
    {
      ghost var before := Contents();
      AckPass(ids, at);
      PruneItems({});
      AcknowledgeOutcome(before, ids, at, retention);
    }

    method ChangeItems(ids: set<Id>, mutation: Mutation, at: nat)
      modifies this`events, this`prunedThrough
      ensures Contents() == Mutated(old(Contents()), ids, mutation, at, retention)
      ensures mutation == Resolve ==> AllClosed(old(Contents()), Contents(), ids, at)
      ensures mutation == Ack ==> AllAcknowledged(old(Contents()), Contents(), ids, at)
    {
      if mutation == Ack { AcknowledgeItems(ids, at); } else { CloseItems(ids, at); }
    }

    method CheckIds(ids: set<Id>) returns (ok: bool)
      ensures ok <==> AllKnown(events, ids)
    {
      RefusedMutations(Contents(), ids);
      ok := !MutateRefused(Contents(), ids);
    }

    /** All the ids or none; MutateApplies says that this is the ledger's operation. */
    method MutateItems(ids: set<Id>, mutation: Mutation, at: nat) returns (ok: bool)
      modifies this
      ensures ok <==> AllKnown(old(events), ids)
      ensures !ok ==> Contents() == old(Contents())
      ensures ok ==> Contents() == Mutated(old(Contents()), ids, mutation, at, retention)
      ensures ok && mutation == Resolve ==> AllClosed(old(Contents()), Contents(), ids, at)
      ensures ok && mutation == Ack ==> AllAcknowledged(old(Contents()), Contents(), ids, at)
    {
      ok := CheckIds(ids);
      if ok { ChangeItems(ids, mutation, at); }
    }

    method ListPage(c: Option<Cursor>, o: Options) returns (page: Page)
      ensures page == List(Contents(), c, o)
    {
      var reset := c.Some? && (c.value.epoch != epoch || c.value.sequence < prunedThrough || c.value.sequence > sequence);
      var after := if c.Some? && !reset then c.value.sequence else 0;
      var eligible: seq<Item> := [];
      for i := 0 to |events|
        invariant eligible == Eligible(events[..i], after, o)
      {
        assert events[..i + 1][..i] == events[..i];
        if Wanted(events[i], after, o) { eligible := eligible + [events[i]]; }
      }
      assert events[..|events|] == events;
      var items := if |eligible| > Limit(o) then eligible[..Limit(o)] else eligible;
      var hasMore := |eligible| > |items|;
      page := Page(items, Cursor(epoch, if hasMore then items[|items| - 1].sequence else sequence), hasMore, reset);
    }
  }
}

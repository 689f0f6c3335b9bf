/** What each operation on the ledger leaves behind, in its caller's terms. */
module AttentionOutcomes {
  import opened Results
  import opened AttentionLedger

  /** A plain request of an agent that an answer to, or the dismissal of, a newer one settles. */
  predicate Superseded(e: Item, newer: nat) {
    e.closing.None? && e.kind == AgentNeedsInput && e.prompt.None? && e.sequence < newer
  }

  /** May this item be answered now: what it takes, or what is in the way. */
  predicate RefusedFor(e: Item, answers: Option<nat>, waiting: bool, why: Refusal) {
    match why
    case NotAnswerable => e.prompt.None?
    case AlreadyResolved => e.prompt.Some? && e.closing.Some?
    case InvalidAnswer => e.prompt.Some? && e.closing.None? && answers.None?
    case WaiterGone => e.prompt.Some? && e.closing.None? && answers.Some? && e.prompt.value.channel == Hook && !waiting
    case _ => false
  }

  predicate ReplyFits(e: Item, answers: Option<nat>, waiting: bool, r: Result<(), Refusal>) {
    if r.Failure? then RefusedFor(e, answers, waiting, r.error)
    else e.prompt.Some? && e.closing.None? && answers.Some? && (e.prompt.value.channel == Hook ==> waiting)
  }

  /** The answer to a request: stored, or refused for the one reason there is. */
  ghost predicate AnswerAllowed(l: Ledger, id: Id, answers: Option<nat>, waiting: bool, r: Result<(), Refusal>) {
    if forall e <- l.events :: e.id != id then r == Failure(NotFound)
    else exists e <- l.events :: e.id == id && ReplyFits(e, answers, waiting, r)
  }

  lemma RefusalIsAllowed(l: Ledger, id: Id, answers: Option<nat>, waiting: bool)
    ensures AnswerAllowed(l, id, answers, waiting,
              match AnswerRefusal(l, id, answers, waiting) case None => Success(()) case Some(why) => Failure(why))
  {
    var found := ById(l.events, id);
    if found.Some? { assert found.value in l.events; }
  }

  /** The item that was answered carries the answer and is closed as answered; plain requests
      before it are closed by hand; of the others some old resolved ones may be dropped, and
      nothing else changed. */
  ghost predicate AnswerStored(l: Ledger, l': Ledger, target: Item, answers: nat, at: nat) {
    && target.(closing := Some(Closing(Answered, at)), answer := Some(answers)) in l'.events
    && (forall e <- l.events :: Superseded(e, target.sequence) ==> e.(closing := Some(Closing(Manual, at))) in l'.events)
    && (forall e <- l.events :: e.closing.None? && e.id != target.id && !Superseded(e, target.sequence) ==> e in l'.events)
    && forall e' <- l'.events :: exists e <- l.events ::
         e' == if e.id == target.id then target.(closing := Some(Closing(Answered, at)), answer := Some(answers))
               else if Superseded(e, target.sequence) then e.(closing := Some(Closing(Manual, at)))
               else e
  }

  /** The displayed request is closed by hand if it was open, with the plain ones before it. */
  ghost predicate DismissedThrough(l: Ledger, l': Ledger, displayed: Item, at: nat) {
    && (displayed.closing.None? ==> displayed.(closing := Some(Closing(Manual, at))) in l'.events)
    && (forall e <- l.events :: Superseded(e, displayed.sequence) ==> e.(closing := Some(Closing(Manual, at))) in l'.events)
    && (forall e <- l.events :: e.closing.None? && e.id != displayed.id && !Superseded(e, displayed.sequence) ==> e in l'.events)
    && forall e' <- l'.events :: exists e <- l.events ::
         e' == if e.closing.None? && (e.id == displayed.id || Superseded(e, displayed.sequence))
               then e.(closing := Some(Closing(Manual, at)))
               else e
  }

  /** Each of these items is still there, closed by hand unless it was closed before. */
  ghost predicate AllClosed(l: Ledger, l': Ledger, ids: set<Id>, at: nat) {
    && (forall e <- l.events :: e.id in ids ==>
          (if e.closing.None? then e.(closing := Some(Closing(Manual, at))) else e) in l'.events)
    && (forall e <- l.events :: e.closing.None? && e.id !in ids ==> e in l'.events)
    && forall e' <- l'.events :: exists e <- l.events ::
         e' == if e.id in ids && e.closing.None? then e.(closing := Some(Closing(Manual, at))) else e
  }

  /** Each of these items that is still open is acknowledged, since now or since before. */
  ghost predicate AllAcknowledged(l: Ledger, l': Ledger, ids: set<Id>, at: nat) {
    && (forall e <- l.events :: e.closing.None? ==>
          (if e.id in ids && e.acknowledged.None? then e.(acknowledged := Some(at)) else e) in l'.events)
    && forall e' <- l'.events :: exists e <- l.events ::
         e' == if e.id in ids && e.acknowledged.None? then e.(acknowledged := Some(at)) else e
  }

  /** How an item stands after the resolutions a hook event reports. */
  predicate ClosedAs(e: Item, o: Observation, at: nat, closing: Option<Closing>) {
    closing ==
      if e.closing.Some? then e.closing
      else if o.resolve.Some? && (o.resolve.value == ElicitationComplete ==> e.kind == ElicitationDialog) then
        Some(Closing(o.resolve.value, at))
      else if o.toolComplete.Some? && e.kind == AskUser && e.source == o.toolComplete then Some(Closing(ToolComplete, at))
      else None
  }

  /** The item that a repeated request was taken for: seen once more, and with the prompt if
      it had none. */
  predicate SeenAgain(e: Item, a: Attention, closing: Option<Closing>, e': Item) {
    && (if a.source.Some? then e.source == a.source && (closing.None? || (a.kind == AskUser && e.kind == AskUser))
        else closing.None? && e.fingerprint == Fingerprint(a.kind, a.text, a.prompt))
    && e' == if e.prompt.None? && a.prompt.Some?
             then e.(closing := closing, occurrences := e.occurrences + 1, prompt := a.prompt,
                     fingerprint := Fingerprint(a.kind, a.text, a.prompt))
             else e.(closing := closing, occurrences := e.occurrences + 1)
  }

  predicate Asked(sequence: nat, a: Attention, e': Item) {
    e' == Item(sequence, sequence, a.kind, a.source, Fingerprint(a.kind, a.text, a.prompt), a.prompt, 1, None, None, None)
  }

  /** What became of an item. */
  predicate Follows(e: Item, o: Observation, at: nat, created: bool, e': Item) {
    && ClosedAs(e, o, at, e'.closing)
    && (e' == e.(closing := e'.closing)
        || (!created && o.attention.Some? && SeenAgain(e, o.attention.value, e'.closing, e')))
  }

  /** A hook event closed what it reports as over, and its request is stored as a new item,
      or counted on the one it repeats. */
  ghost predicate HookRecorded(l: Ledger, l': Ledger, o: Observation, at: nat) {
    var created := l'.sequence > l.sequence;
    && l.sequence <= l'.sequence <= l.sequence + 1
    && (created ==> o.attention.Some? && exists e' <- l'.events :: Asked(l'.sequence, o.attention.value, e'))
    && (o.attention.Some? && !created ==> exists e <- l.events, e' ::
          Follows(e, o, at, false, e') && SeenAgain(e, o.attention.value, e'.closing, e')
          && (e.closing.None? ==> e' in l'.events))
    && (forall e <- l.events :: e.closing.None? ==> exists e' <- l'.events :: e'.id == e.id && Follows(e, o, at, created, e'))
    && (forall e' <- l'.events ::
          || (created && Asked(l'.sequence, o.attention.value, e'))
          || exists e <- l.events :: Follows(e, o, at, created, e'))
  }

  /** Does a hook event report this item as over? */
  predicate Settles(o: Observation, e: Item) {
    || (o.resolve.Some? && (o.resolve.value == ElicitationComplete ==> e.kind == ElicitationDialog))
    || (o.toolComplete.Some? && e.kind == AskUser && e.source == o.toolComplete)
  }

  ghost predicate SettlesAny(o: Observation, events: seq<Item>) {
    exists e <- events :: e.closing.None? && Settles(o, e)
  }

  /** Waiting polls are woken exactly if an open item was settled. */
  lemma {:induction false} WakesIfSettled(l: Ledger, o: Observation, at: nat)
    ensures RecordResolves(l, o, at) != {} <==> SettlesAny(o, l.events)
  {
    if RecordResolves(l, o, at) != {} {
      var id :| id in RecordResolves(l, o, at);
      if o.resolve.Some? && id in Newly(l.events, FirstPass(o)) {
        var e :| e in l.events && Open(e) && Selected(FirstPass(o), e);
        assert Settles(o, e);
      } else {
        var first := AfterFirstPass(l, o, at);
        var e' :| e' in first && Open(e') && Selected(AskCall(o.toolComplete.value), e');
        var i := At(first, e');
        assert l.events[i] in l.events && Settles(o, l.events[i]) && l.events[i].closing.None?;
      }
    }
    if e :| e in l.events && e.closing.None? && Settles(o, e) {
      PassesAre(l, o, at);
      PassedIs(e, o, at);
    }
  }

  ghost predicate AllKnown(events: seq<Item>, ids: set<Id>) {
    ids != {} && |ids| <= 100 && forall id <- ids :: exists e <- events :: e.id == id
  }

  /** A list of ids is refused as a whole: empty, too long, or with an unknown one in it. */
  lemma RefusedMutations(l: Ledger, ids: set<Id>)
    ensures !MutateRefused(l, ids) <==> AllKnown(l.events, ids)
  {
    if forall id <- ids :: exists e <- l.events :: e.id == id {
      forall id <- ids ensures ById(l.events, id).Some? {
        var e :| e in l.events && e.id == id;
      }
    }
    if forall id <- ids :: ById(l.events, id).Some? {
      forall id <- ids ensures exists e <- l.events :: e.id == id {
        assert ById(l.events, id).value in l.events;
      }
    }
  }

  /** The ledger's operation on a list of ids changes all of them or nothing. */
  lemma {:induction false} MutateApplies(l: Ledger, ids: set<Id>, mutation: Mutation, at: nat, retention: nat)
    ensures Apply(l, Mutate(ids, mutation, at), retention)
         == if AllKnown(l.events, ids) then Mutated(l, ids, mutation, at, retention) else l
  {
    RefusedMutations(l, ids);
  }

  // ---------- pruning on top ----------

  lemma Kept(m: Ledger, protect: set<Id>, retention: nat)
    ensures forall e <- Prune(m, protect, retention).events :: e in m.events
    ensures forall e <- m.events :: e.closing.None? || e.id in protect ==> e in Prune(m, protect, retention).events
  {
    KeptOrMarked(m.events, protect, retention);
  }

  /** Pruning drops only resolved items that nobody needs, the oldest, until as many of those
      are left as the retention allows; it remembers how far it went. */
  lemma {:induction false} PrunedIs(l: Ledger, protect: set<Id>, retention: nat)
    requires Ordered(l.events)
    ensures var p := Prune(l, protect, retention);
      && p.epoch == l.epoch && p.sequence == l.sequence && p.prunedThrough >= l.prunedThrough
      && (forall e <- p.events :: e in l.events)
      && (forall e <- l.events :: e !in p.events ==>
            && e.closing.Some? && e.id !in protect && e.sequence <= p.prunedThrough
            && forall k <- p.events :: k.closing.Some? && k.id !in protect && k.sequence > 0 ==> k.sequence > e.sequence)
      && CountPrunable(p.events, protect)
           == (if CountPrunable(l.events, protect) < retention then CountPrunable(l.events, protect) else retention)
  {
    KeptOrMarked(l.events, protect, retention);
    KeepsBudget(l.events, protect, retention);
    KeepsNewest(l.events, protect, retention);
  }

  lemma At(events: seq<Item>, e: Item) returns (i: nat)
    requires e in events
    ensures i < |events| && events[i] == e
  {
    i :| 0 <= i < |events| && events[i] == e;
  }

  // ---------- the operations ----------

  /** One item of an answered ledger, before pruning. */
  lemma AnsweredItem(l: Ledger, target: Item, answers: nat, at: nat, e: Item)
    requires Inv(l) && target in l.events && target.closing.None? && e in l.events
    ensures Close(AnswerItem(e, target.id, answers, at), OlderPlain(target.sequence), Closing(Manual, at))
         == if e.id == target.id then target.(closing := Some(Closing(Answered, at)), answer := Some(answers))
            else if Superseded(e, target.sequence) then e.(closing := Some(Closing(Manual, at)))
            else e
  {
    if e.id == target.id { SameId(l, e, target); }
  }

  lemma AnswerOutcome(l: Ledger, target: Item, answers: nat, at: nat, retention: nat)
    requires Inv(l) && target in l.events && target.closing.None?
    ensures AnswerStored(l, AnsweredLedger(l, target, answers, at, retention), target, answers, at)
  {
    var id, sel, c := target.id, OlderPlain(target.sequence), Closing(Manual, at);
    var answered := AnswerAll(l.events, id, answers, at);
    var m := l.(events := CloseAll(answered, sel, c));
    var protect := {id} + Newly(answered, sel);
    var l' := Prune(m, protect, retention);
    Kept(m, protect, retention);
    forall e <- l.events
      ensures Close(AnswerItem(e, id, answers, at), sel, c) in m.events
      ensures e.closing.None? || e.id == id ==> Close(AnswerItem(e, id, answers, at), sel, c) in l'.events
    {
      var i := At(l.events, e);
      assert m.events[i] in m.events && answered[i] in answered;
    }
    forall e <- l.events { AnsweredItem(l, target, answers, at, e); }
    forall e' <- l'.events ensures exists e <- l.events :: e' == Close(AnswerItem(e, id, answers, at), sel, c) {
      var i := At(m.events, e');
      assert l.events[i] in l.events;
    }
  }

  lemma DismissedItem(l: Ledger, displayed: Item, at: nat, e: Item)
    requires Inv(l) && displayed in l.events && Explicit(displayed) && e in l.events
    ensures Close(e, Through(displayed), Closing(Manual, at))
         == if e.closing.None? && (e.id == displayed.id || Superseded(e, displayed.sequence))
            then e.(closing := Some(Closing(Manual, at)))
            else e
  {
    assert NumberedItem(e, l.sequence) && NumberedItem(displayed, l.sequence);
    if e.id == displayed.id { SameId(l, e, displayed); }
  }

  /** A resolving pass, pruned: what it leaves of each item. */
  lemma {:induction false} ClosedAndPruned(l: Ledger, s: Selection, c: Closing, protect: set<Id>, retention: nat)
    ensures var l' := Prune(l.(events := CloseAll(l.events, s, c)), protect, retention);
      && (forall e <- l.events :: Close(e, s, c).closing.None? || e.id in protect ==> Close(e, s, c) in l'.events)
      && (forall e' <- l'.events :: exists e <- l.events :: e' == Close(e, s, c))
  {
    var m := l.(events := CloseAll(l.events, s, c));
    var l' := Prune(m, protect, retention);
    Kept(m, protect, retention);
    forall e <- l.events ensures Close(e, s, c).closing.None? || e.id in protect ==> Close(e, s, c) in l'.events {
      var i := At(l.events, e);
      assert m.events[i] in m.events;
    }
    forall e' <- l'.events ensures exists e <- l.events :: e' == Close(e, s, c) {
      var i := At(m.events, e');
      assert l.events[i] in l.events;
    }
  }

  lemma {:induction false} DismissOutcome(l: Ledger, id: Id, at: nat, retention: nat)
    requires Inv(l) && ById(l.events, id).Some? && Explicit(ById(l.events, id).value)
    ensures DismissedThrough(l, Apply(l, ResolveThrough(id, at), retention), ById(l.events, id).value, at)
  {
    var displayed := ById(l.events, id).value;
    ClosedAndPruned(l, Through(displayed), Closing(Manual, at), Newly(l.events, Through(displayed)), retention);
    forall e <- l.events { DismissedItem(l, displayed, at, e); }
  }

  lemma {:induction false} CloseOutcome(l: Ledger, ids: set<Id>, at: nat, retention: nat)
    ensures AllClosed(l, Prune(l.(events := CloseAll(l.events, Chosen(ids), Closing(Manual, at))), ids, retention), ids, at)
  {
    ClosedAndPruned(l, Chosen(ids), Closing(Manual, at), ids, retention);
    forall e <- l.events ensures Close(e, Chosen(ids), Closing(Manual, at)) ==
      if e.id in ids && e.closing.None? then e.(closing := Some(Closing(Manual, at))) else e
    {
    }
  }

  lemma AcknowledgeOutcome(l: Ledger, ids: set<Id>, at: nat, retention: nat)
    ensures AllAcknowledged(l, Prune(l.(events := AckAll(l.events, ids, at)), {}, retention), ids, at)
  {
    var m := l.(events := AckAll(l.events, ids, at));
    var l' := Prune(m, {}, retention);
    Kept(m, {}, retention);
    forall e <- l.events ensures e.closing.None? ==> AckItem(e, ids, at) in l'.events {
      var i := At(l.events, e);
      assert m.events[i] in m.events;
    }
    forall e' <- l'.events ensures exists e <- l.events :: e' == AckItem(e, ids, at) {
      var i := At(m.events, e');
      assert l.events[i] in l.events;
    }
  }

  /** One item after the resolving passes of a hook event. */
  function Passed(e: Item, o: Observation, at: nat): Item {
    var first := if o.resolve.Some? then Close(e, FirstPass(o), Closing(o.resolve.value, at)) else e;
    if o.toolComplete.Some? then Close(first, AskCall(o.toolComplete.value), Closing(ToolComplete, at)) else first
  }

  lemma PassesAre(l: Ledger, o: Observation, at: nat)
    ensures |AfterPasses(l, o, at)| == |l.events|
    ensures forall i :: 0 <= i < |l.events| ==> AfterPasses(l, o, at)[i] == Passed(l.events[i], o, at)
    ensures forall e <- l.events :: e.closing.None? && Passed(e, o, at).closing.Some? ==> e.id in RecordResolves(l, o, at)
  {
    forall e <- l.events | e.closing.None? && Passed(e, o, at).closing.Some? ensures e.id in RecordResolves(l, o, at) {
      var i := At(l.events, e);
      var first := AfterFirstPass(l, o, at);
      assert first[i] in first;
    }
  }

  lemma PassedIs(e: Item, o: Observation, at: nat)
    ensures ClosedAs(e, o, at, Passed(e, o, at).closing) && Passed(e, o, at) == e.(closing := Passed(e, o, at).closing)
  {
  }

  /** Before pruning: the item at i after the request was inserted. */
  lemma InsertedAt(l: Ledger, o: Observation, at: nat, i: nat)
    requires i < |l.events|
    ensures var m := l.(events := AfterPasses(l, o, at));
      var n := if o.attention.Some? then Insert(m, o.attention.value) else m;
      && i < |n.events| && Follows(l.events[i], o, at, n.sequence > l.sequence, n.events[i])
      && n.events[i].id == l.events[i].id
      && (o.attention.Some? && Find(m.events, o.attention.value) == Some(i) ==>
            SeenAgain(l.events[i], o.attention.value, n.events[i].closing, n.events[i]))
  {
    PassesAre(l, o, at);
    PassedIs(l.events[i], o, at);
  }

  lemma {:induction false} RecordOutcome(l: Ledger, o: Observation, at: nat, retention: nat)
    requires Inv(l)
    ensures HookRecorded(l, Apply(l, Record(o, at), retention), o, at)
  {
    var m := l.(events := AfterPasses(l, o, at));
    var n := if o.attention.Some? then Insert(m, o.attention.value) else m;
    var l' := Prune(n, RecordResolves(l, o, at), retention);
    var created := n.sequence > l.sequence;
    PassesAre(l, o, at);
    Kept(n, RecordResolves(l, o, at), retention);
    OpenOnesFollow(l, o, at, n, l', created);
    AllFollow(l, o, at, n, l', created);
    if created {
      assert n.events[|l.events|] in n.events;
    } else if o.attention.Some? {
      var i := Find(m.events, o.attention.value).value;
      InsertedAt(l, o, at, i);
      assert l.events[i] in l.events && n.events[i] in n.events;
    }
  }

  /** The ledger between inserting and pruning. */
  ghost predicate Between(l: Ledger, o: Observation, at: nat, n: Ledger, created: bool) {
    var m := l.(events := AfterPasses(l, o, at));
    && n == (if o.attention.Some? then Insert(m, o.attention.value) else m)
    && created == (n.sequence > l.sequence)
  }

  lemma {:induction false} OpenOnesFollow(l: Ledger, o: Observation, at: nat, n: Ledger, l': Ledger, created: bool)
    requires Between(l, o, at, n, created)
    requires forall e <- n.events :: e.closing.None? || e.id in RecordResolves(l, o, at) ==> e in l'.events
    ensures forall e <- l.events :: e.closing.None? ==> exists e' <- l'.events :: e'.id == e.id && Follows(e, o, at, created, e')
  {
    PassesAre(l, o, at);
    forall e <- l.events | e.closing.None? ensures exists e' <- l'.events :: e'.id == e.id && Follows(e, o, at, created, e') {
      var i := At(l.events, e);
      InsertedAt(l, o, at, i);
      assert n.events[i] in n.events;
    }
  }

  lemma {:induction false} AllFollow(l: Ledger, o: Observation, at: nat, n: Ledger, l': Ledger, created: bool)
    requires Between(l, o, at, n, created) && l'.sequence == n.sequence
    requires forall e' <- l'.events :: e' in n.events
    ensures forall e' <- l'.events ::
      (created && Asked(l'.sequence, o.attention.value, e')) || exists e <- l.events :: Follows(e, o, at, created, e')
  {
    PassesAre(l, o, at);
    forall e' <- l'.events
      ensures (created && Asked(l'.sequence, o.attention.value, e')) || exists e <- l.events :: Follows(e, o, at, created, e')
    {
      var i := At(n.events, e');
      if i < |l.events| {
        InsertedAt(l, o, at, i);
        assert l.events[i] in l.events;
      }
    }
  }
}

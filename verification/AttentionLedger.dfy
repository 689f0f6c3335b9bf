/** The attention ledger of one session: numbered requests for a human's attention,
    each resolved at most once, pruned when old, and read with a cursor. */
module AttentionLedger {
  import opened Results

  type Id = nat

  datatype Kind = PermissionPrompt | ElicitationDialog | AgentNeedsInput | AskUser

  datatype Channel = Mail | Hook

  datatype Prompt = Prompt(channel: Channel, questions: nat)

  datatype How = Manual | UserPrompt | ElicitationComplete | SessionEnd | Answered | ToolComplete

  /** resolution and resolvedAt, which are always written together. */
  datatype Closing = Closing(how: How, at: nat)

  /** The hash of the request's text and prompt, taken as the hashed value itself. */
  datatype Fingerprint = Fingerprint(kind: Kind, text: nat, prompt: Option<Prompt>)

  datatype Item = Item(
    id: Id,
    sequence: nat,
    kind: Kind,
    source: Option<nat>,
    fingerprint: Fingerprint,
    prompt: Option<Prompt>,
    occurrences: nat,
    acknowledged: Option<nat>,
    closing: Option<Closing>,
    answer: Option<nat>)

  predicate Open(e: Item) {
    e.closing.None?
  }

  /** The stored ledger. A missing file is replaced by an empty one of a new epoch. */
  datatype Ledger = Ledger(epoch: nat, sequence: nat, prunedThrough: nat, events: seq<Item>)

  datatype Attention = Attention(kind: Kind, text: nat, source: Option<nat>, prompt: Option<Prompt>)

  datatype Observation = Observation(resolve: Option<How>, toolComplete: Option<nat>, attention: Option<Attention>)

  function FingerprintOf(a: Attention): Fingerprint {
    Fingerprint(a.kind, a.text, a.prompt)
  }

  predicate Explicit(e: Item) {
    e.kind == AgentNeedsInput || (e.kind == AskUser && e.prompt.Some?)
  }

  // ---------- resolving ----------

  /** Which items an operation resolves. */
  datatype Selection =
    | Everything
    | Dialogs
    | AskCall(call: nat)
    | Through(displayed: Item)
    | OlderPlain(before: nat)
    | Chosen(ids: set<Id>)

  predicate Selected(s: Selection, e: Item) {
    match s
    case Everything => true
    case Dialogs => e.kind == ElicitationDialog
    case AskCall(call) => e.kind == AskUser && e.source == Some(call)
    case Through(d) => Explicit(e) && e.sequence <= d.sequence && (e.id == d.id || e.prompt.None?)
    case OlderPlain(before) => Explicit(e) && e.sequence < before && e.prompt.None?
    case Chosen(ids) => e.id in ids
  }

  function Close(e: Item, s: Selection, c: Closing): Item {
    if Open(e) && Selected(s, e) then e.(closing := Some(c)) else e
  }

  function CloseAll(events: seq<Item>, s: Selection, c: Closing): (r: seq<Item>)
    ensures |r| == |events| && forall i :: 0 <= i < |events| ==> r[i] == Close(events[i], s, c)
  {
    seq(|events|, i requires 0 <= i < |events| => Close(events[i], s, c))
  }

  /** The items a resolving pass newly resolves; pruning must spare them. */
  function Newly(events: seq<Item>, s: Selection): set<Id> {
    set e | e in events && Open(e) && Selected(s, e) :: e.id
  }

  // ---------- recording ----------

  predicate Matches(a: Attention, e: Item) {
    if a.source.Some? then e.source == a.source && (Open(e) || (a.kind == AskUser && e.kind == AskUser))
    else Open(e) && e.fingerprint == FingerprintOf(a)
  }

  function Find(events: seq<Item>, a: Attention): (r: Option<nat>)
    ensures r.Some? ==> r.value < |events| && Matches(a, events[r.value])
    ensures r.Some? ==> forall k :: 0 <= k < r.value ==> !Matches(a, events[k])
    ensures r.None? ==> forall k :: 0 <= k < |events| ==> !Matches(a, events[k])
  {
    if events == [] then None
    else
      var r := Find(events[..|events| - 1], a);
      if r.Some? then r
      else if Matches(a, events[|events| - 1]) then Some(|events| - 1)
      else None
  }

  function Touch(e: Item, a: Attention): Item {
    var seen := e.(occurrences := e.occurrences + 1);
    if e.prompt.None? && a.prompt.Some? then seen.(prompt := a.prompt, fingerprint := FingerprintOf(a)) else seen
  }

  function NewItem(sequence: nat, a: Attention): Item {
    Item(sequence, sequence, a.kind, a.source, FingerprintOf(a), a.prompt, 1, None, None, None)
  }

  function Insert(l: Ledger, a: Attention): Ledger {
    var i := Find(l.events, a);
    if i.Some? then l.(events := l.events[i.value := Touch(l.events[i.value], a)])
    else l.(sequence := l.sequence + 1, events := l.events + [NewItem(l.sequence + 1, a)])
  }

  // ---------- pruning ----------

  predicate Prunable(e: Item, protect: set<Id>) {
    !Open(e) && e.id !in protect
  }

  /** Keep everything open or protected, and the newest `budget` of the rest. */
  function Keep(events: seq<Item>, protect: set<Id>, budget: nat): seq<Item> {
    if events == [] then []
    else
      var front, last := events[..|events| - 1], events[|events| - 1];
      if !Prunable(last, protect) then Keep(front, protect, budget) + [last]
      else if budget > 0 then Keep(front, protect, budget - 1) + [last]
      else Keep(front, protect, 0)
  }

  function LastDropped(events: seq<Item>, protect: set<Id>, budget: nat): nat {
    if events == [] then 0
    else
      var front, last := events[..|events| - 1], events[|events| - 1];
      if !Prunable(last, protect) then LastDropped(front, protect, budget)
      else if budget > 0 then LastDropped(front, protect, budget - 1)
      else Max(LastDropped(front, protect, 0), last.sequence)
  }

  function Max(a: nat, b: nat): nat {
    if a < b then b else a
  }

  function Prune(l: Ledger, protect: set<Id>, retention: nat): Ledger {
    l.(events := Keep(l.events, protect, retention),
       prunedThrough := Max(l.prunedThrough, LastDropped(l.events, protect, retention)))
  }

  // ---------- the operations ----------

  datatype Mutation = Ack | Resolve

  datatype Op =
    | Record(observation: Observation, at: nat)
    | ResolveThrough(eventId: Id, at: nat)
    | Answer(eventId: Id, answers: Option<nat>, waiting: bool, at: nat)
    | Mutate(ids: set<Id>, mutation: Mutation, at: nat)
    | LoseFile

  function ById(events: seq<Item>, id: Id): (r: Option<Item>)
    ensures r.Some? ==> r.value in events && r.value.id == id
    ensures r.None? ==> forall e :: e in events ==> e.id != id
  {
    if events == [] then None
    else
      var r := ById(events[..|events| - 1], id);
      assert events == events[..|events| - 1] + [events[|events| - 1]];
      if r.Some? then r else if events[|events| - 1].id == id then Some(events[|events| - 1]) else None
  }

  function FirstPass(o: Observation): Selection {
    if o.resolve == Some(ElicitationComplete) then Dialogs else Everything
  }

  function AfterFirstPass(l: Ledger, o: Observation, at: nat): seq<Item> {
    if o.resolve.Some? then CloseAll(l.events, FirstPass(o), Closing(o.resolve.value, at)) else l.events
  }

  /** The items a hook event resolves. */
  function RecordResolves(l: Ledger, o: Observation, at: nat): set<Id> {
    var first := if o.resolve.Some? then Newly(l.events, FirstPass(o)) else {};
    var second := if o.toolComplete.Some? then Newly(AfterFirstPass(l, o, at), AskCall(o.toolComplete.value)) else {};
    first + second
  }

  function AfterPasses(l: Ledger, o: Observation, at: nat): seq<Item> {
    var e := AfterFirstPass(l, o, at);
    if o.toolComplete.Some? then CloseAll(e, AskCall(o.toolComplete.value), Closing(ToolComplete, at)) else e
  }

  function Recorded(l: Ledger, o: Observation, at: nat, retention: nat): Ledger {
    var l2 := l.(events := AfterPasses(l, o, at));
    var l3 := if o.attention.Some? then Insert(l2, o.attention.value) else l2;
    Prune(l3, RecordResolves(l, o, at), retention)
  }

  function AnswerItem(e: Item, id: Id, answers: nat, at: nat): Item {
    if e.id == id then e.(answer := Some(answers), closing := Some(Closing(Answered, at))) else e
  }

  function AnswerAll(events: seq<Item>, id: Id, answers: nat, at: nat): (r: seq<Item>)
    ensures |r| == |events| && forall i :: 0 <= i < |events| ==> r[i] == AnswerItem(events[i], id, answers, at)
  {
    seq(|events|, i requires 0 <= i < |events| => AnswerItem(events[i], id, answers, at))
  }

  function AckItem(e: Item, ids: set<Id>, at: nat): Item {
    if e.id in ids && e.acknowledged.None? then e.(acknowledged := Some(at)) else e
  }

  function AckAll(events: seq<Item>, ids: set<Id>, at: nat): (r: seq<Item>)
    ensures |r| == |events| && forall i :: 0 <= i < |events| ==> r[i] == AckItem(events[i], ids, at)
  {
    seq(|events|, i requires 0 <= i < |events| => AckItem(events[i], ids, at))
  }

  datatype Refusal = NotFound | NotAnswerable | AlreadyResolved | InvalidAnswer | WaiterGone | Unknown

  /** Why answer() refuses, if it does. `answers` is None when they do not validate. */
  function AnswerRefusal(l: Ledger, eventId: Id, answers: Option<nat>, waiting: bool): Option<Refusal> {
    var found := ById(l.events, eventId);
    if found.None? then Some(NotFound)
    else if found.value.prompt.None? then Some(NotAnswerable)
    else if !Open(found.value) then Some(AlreadyResolved)
    else if answers.None? then Some(InvalidAnswer)
    else if found.value.prompt.value.channel == Hook && !waiting then Some(WaiterGone)
    else None
  }

  predicate MutateRefused(l: Ledger, ids: set<Id>) {
    ids == {} || |ids| > 100 || exists id <- ids :: ById(l.events, id).None?
  }

  function Mutated(l: Ledger, ids: set<Id>, mutation: Mutation, at: nat, retention: nat): Ledger {
    match mutation
    case Ack => Prune(l.(events := AckAll(l.events, ids, at)), {}, retention)
    case Resolve => Prune(l.(events := CloseAll(l.events, Chosen(ids), Closing(Manual, at))), ids, retention)
  }

  function AnsweredLedger(l: Ledger, target: Item, answers: nat, at: nat, retention: nat): Ledger {
    var answered := AnswerAll(l.events, target.id, answers, at);
    Prune(l.(events := CloseAll(answered, OlderPlain(target.sequence), Closing(Manual, at))),
          {target.id} + Newly(answered, OlderPlain(target.sequence)), retention)
  }

  function Apply(l: Ledger, op: Op, retention: nat): Ledger {
    match op
    case Record(o, at) => Recorded(l, o, at, retention)
    case ResolveThrough(id, at) =>
      var found := ById(l.events, id);
      if found.None? || !Explicit(found.value) then l
      else
        Prune(l.(events := CloseAll(l.events, Through(found.value), Closing(Manual, at))),
              Newly(l.events, Through(found.value)), retention)
    case Answer(id, answers, waiting, at) =>
      if AnswerRefusal(l, id, answers, waiting).Some? then l
      else AnsweredLedger(l, ById(l.events, id).value, answers.value, at, retention)
    case Mutate(ids, mutation, at) =>
      if MutateRefused(l, ids) then l else Mutated(l, ids, mutation, at, retention)
    case LoseFile => Ledger(l.epoch + 1, 0, 0, [])
  }

  /** A hook never reports a human's own ways of resolving. */
  predicate Proper(op: Op) {
    op.Record? && op.observation.resolve.Some? ==>
      op.observation.resolve.value in {UserPrompt, ElicitationComplete, SessionEnd}
  }

  // ---------- the invariant ----------

  predicate Ordered(events: seq<Item>) {
    forall i, j :: 0 <= i < j < |events| ==> events[i].sequence < events[j].sequence
  }

  predicate NumberedItem(e: Item, sequence: nat) {
    1 <= e.sequence <= sequence && e.id == e.sequence
  }

  ghost predicate HasSequence(events: seq<Item>, n: nat) {
    exists i :: 0 <= i < |events| && events[i].sequence == n
  }

  /** Nothing beyond the pruning mark is missing. */
  ghost predicate Complete(events: seq<Item>, prunedThrough: nat, sequence: nat) {
    forall n: nat :: prunedThrough < n <= sequence ==> HasSequence(events, n)
  }

  /** An answer is there exactly when the resolution says so. */
  predicate AnswerFits(e: Item) {
    e.answer.Some? <==> e.closing.Some? && e.closing.value.how == Answered
  }

  /** Two items that must not both be stored: the same source twice open or twice a
      question call, or the same text twice open without any source. */
  predicate Clash(e: Item, f: Item) {
    || (e.source.Some? && e.source == f.source && ((Open(e) && Open(f)) || (e.kind == AskUser && f.kind == AskUser)))
    || (e.source.None? && f.source.None? && Open(e) && Open(f) && e.fingerprint == f.fingerprint)
  }

  ghost predicate NoClash(events: seq<Item>) {
    forall e <- events, f <- events :: e.sequence != f.sequence ==> !Clash(e, f)
  }

  ghost predicate AllProper(events: seq<Item>, sequence: nat) {
    forall e <- events :: NumberedItem(e, sequence) && AnswerFits(e)
  }

  ghost predicate Inv(l: Ledger) {
    && l.prunedThrough <= l.sequence
    && Ordered(l.events)
    && AllProper(l.events, l.sequence)
    && Complete(l.events, l.prunedThrough, l.sequence)
    && NoClash(l.events)
  }

  // ---------- steps that keep the items ----------

  /** What an operation may do to one item without disturbing the rest of the ledger: its
      text stays, unless it has a source and gets the prompt it had not. */
  predicate Weakens(e: Item, e': Item) {
    && e'.id == e.id && e'.sequence == e.sequence && e'.kind == e.kind && e'.source == e.source
    && (Open(e') ==> Open(e))
    && (e.source.None? ==> e'.fingerprint == e.fingerprint)
    && (e.prompt.Some? ==> e'.prompt == e.prompt && e'.fingerprint == e.fingerprint)
    && (e'.prompt.None? ==> e'.fingerprint == e.fingerprint)
    && e.occurrences <= e'.occurrences
    && (e.acknowledged.Some? ==> e'.acknowledged == e.acknowledged)
    && (AnswerFits(e) ==> AnswerFits(e'))
    && (!Open(e) ==> e'.closing == e.closing && e'.answer == e.answer)
  }

  ghost predicate Pointwise(events: seq<Item>, events': seq<Item>) {
    |events'| == |events| && forall i :: 0 <= i < |events| ==> Weakens(events[i], events'[i])
  }

  lemma PointwiseNoClash(events: seq<Item>, events': seq<Item>)
    requires NoClash(events) && Pointwise(events, events')
    ensures NoClash(events')
  {
    forall e <- events', f <- events' | e.sequence != f.sequence ensures !Clash(e, f) {
      var i :| 0 <= i < |events'| && events'[i] == e;
      var j :| 0 <= j < |events'| && events'[j] == f;
      assert Weakens(events[i], e) && Weakens(events[j], f);
      assert !Clash(events[i], events[j]);
    }
  }

  lemma PointwiseComplete(events: seq<Item>, events': seq<Item>, prunedThrough: nat, sequence: nat)
    requires Complete(events, prunedThrough, sequence) && Pointwise(events, events')
    ensures Complete(events', prunedThrough, sequence)
  {
    forall n: nat | prunedThrough < n <= sequence ensures HasSequence(events', n) {
      assert HasSequence(events, n);
      var i :| 0 <= i < |events| && events[i].sequence == n;
      assert events'[i].sequence == n;
    }
  }

  lemma PointwiseKeepsInv(l: Ledger, events: seq<Item>)
    requires Inv(l) && Pointwise(l.events, events)
    ensures Inv(l.(events := events))
  {
    PointwiseComplete(l.events, events, l.prunedThrough, l.sequence);
    PointwiseNoClash(l.events, events);
    forall e <- events ensures NumberedItem(e, l.sequence) && AnswerFits(e) {
      var i :| 0 <= i < |events| && events[i] == e;
      assert l.events[i] in l.events && Weakens(l.events[i], e);
    }
  }

  lemma CloseAllWeakens(events: seq<Item>, s: Selection, c: Closing)
    requires c.how != Answered
    ensures Pointwise(events, CloseAll(events, s, c))
  {
  }

  lemma SameId(l: Ledger, e: Item, f: Item)
    requires Inv(l) && e in l.events && f in l.events && e.id == f.id
    ensures e == f
  {
    var i :| 0 <= i < |l.events| && l.events[i] == e;
    var j :| 0 <= j < |l.events| && l.events[j] == f;
    assert NumberedItem(e, l.sequence) && NumberedItem(f, l.sequence);
  }

  lemma NewNoClash(events: seq<Item>, a: Attention, item: Item)
    requires NoClash(events) && Find(events, a).None? && item == NewItem(item.sequence, a)
    ensures NoClash(events + [item])
  {
    forall e <- events ensures !Clash(e, item) && !Clash(item, e) {
      var k :| 0 <= k < |events| && events[k] == e;
      assert !Matches(a, events[k]);
    }
    assert forall e <- events + [item] :: e in events || e == item;
  }

  lemma NewComplete(events: seq<Item>, item: Item, prunedThrough: nat, sequence: nat)
    requires Complete(events, prunedThrough, sequence) && item.sequence == sequence + 1
    ensures Complete(events + [item], prunedThrough, sequence + 1)
  {
    forall n: nat | prunedThrough < n <= sequence + 1 ensures HasSequence(events + [item], n) {
      if n == sequence + 1 {
        assert (events + [item])[|events|].sequence == n;
      } else {
        assert HasSequence(events, n);
        var i :| 0 <= i < |events| && events[i].sequence == n;
        assert (events + [item])[i].sequence == n;
      }
    }
  }

  lemma TouchKeepsInv(l: Ledger, a: Attention)
    requires Inv(l) && Find(l.events, a).Some?
    ensures Inv(Insert(l, a))
  {
    var i := Find(l.events, a).value;
    var events := l.events[i := Touch(l.events[i], a)];
    assert Weakens(l.events[i], events[i]);
    PointwiseKeepsInv(l, events);
  }

  lemma NewOrdered(l: Ledger, item: Item)
    requires Inv(l) && item.sequence == l.sequence + 1
    ensures Ordered(l.events + [item])
  {
    forall j | 0 <= j < |l.events| ensures l.events[j].sequence < item.sequence {
      assert l.events[j] in l.events && NumberedItem(l.events[j], l.sequence);
    }
  }

  lemma NewProper(l: Ledger, a: Attention)
    requires Inv(l)
    ensures AllProper(l.events + [NewItem(l.sequence + 1, a)], l.sequence + 1)
  {
    forall e <- l.events + [NewItem(l.sequence + 1, a)] ensures NumberedItem(e, l.sequence + 1) && AnswerFits(e) {
      if e in l.events { assert NumberedItem(e, l.sequence); }
    }
  }

  lemma InsertKeepsInv(l: Ledger, a: Attention)
    requires Inv(l)
    ensures Inv(Insert(l, a))
  {
    if Find(l.events, a).Some? {
      TouchKeepsInv(l, a);
    } else {
      var item := NewItem(l.sequence + 1, a);
      NewNoClash(l.events, a, item);
      NewComplete(l.events, item, l.prunedThrough, l.sequence);
      NewOrdered(l, item);
      NewProper(l, a);
    }
  }

  // ---------- pruning lemmas ----------

  /** Every item is kept, or was prunable and is covered by the pruning mark. */
  lemma {:induction false} KeptOrMarked(events: seq<Item>, protect: set<Id>, budget: nat)
    ensures forall e <- Keep(events, protect, budget) :: e in events
    ensures forall e <- events :: e in Keep(events, protect, budget)
              || (Prunable(e, protect) && e.sequence <= LastDropped(events, protect, budget))
  {
    if events != [] {
      var front, last := events[..|events| - 1], events[|events| - 1];
      assert events == front + [last];
      KeptOrMarked(front, protect, if Prunable(last, protect) && budget > 0 then budget - 1 else budget);
    }
  }

  lemma {:induction false} KeepOrdered(events: seq<Item>, protect: set<Id>, budget: nat)
    requires Ordered(events)
    ensures Ordered(Keep(events, protect, budget))
  {
    if events != [] {
      var front, last := events[..|events| - 1], events[|events| - 1];
      var b := if Prunable(last, protect) && budget > 0 then budget - 1 else budget;
      KeepOrdered(front, protect, b);
      KeptOrMarked(front, protect, b);
      var kept := Keep(front, protect, b);
      forall j | 0 <= j < |kept| ensures kept[j].sequence < last.sequence {
        assert kept[j] in front;
      }
    }
  }

  lemma {:induction false} LastDroppedBound(events: seq<Item>, protect: set<Id>, budget: nat, bound: nat)
    requires forall e <- events :: e.sequence <= bound
    ensures LastDropped(events, protect, budget) <= bound
  {
    if events != [] {
      var front, last := events[..|events| - 1], events[|events| - 1];
      assert events == front + [last];
      LastDroppedBound(front, protect, if Prunable(last, protect) && budget > 0 then budget - 1 else budget, bound);
    }
  }

  lemma PruneKeepsInv(l: Ledger, protect: set<Id>, retention: nat)
    requires Inv(l)
    ensures Inv(Prune(l, protect, retention))
  {
    var p := Prune(l, protect, retention);
    KeptOrMarked(l.events, protect, retention);
    KeepOrdered(l.events, protect, retention);
    forall e <- l.events ensures e.sequence <= l.sequence { assert NumberedItem(e, l.sequence); }
    LastDroppedBound(l.events, protect, retention, l.sequence);
    forall n: nat | p.prunedThrough < n <= p.sequence ensures HasSequence(p.events, n) {
      assert HasSequence(l.events, n);
      var i :| 0 <= i < |l.events| && l.events[i].sequence == n;
      assert l.events[i] in p.events;
      var j :| 0 <= j < |p.events| && p.events[j] == l.events[i];
    }
  }

  function CountPrunable(events: seq<Item>, protect: set<Id>): nat {
    if events == [] then 0
    else CountPrunable(events[..|events| - 1], protect) + (if Prunable(events[|events| - 1], protect) then 1 else 0)
  }

  /** Exactly `budget` prunable items stay, or all if there are fewer ... */
  lemma {:induction false} KeepsBudget(events: seq<Item>, protect: set<Id>, budget: nat)
    ensures var all := CountPrunable(events, protect);
      CountPrunable(Keep(events, protect, budget), protect) == if all < budget then all else budget
  {
    if events != [] {
      var front, last := events[..|events| - 1], events[|events| - 1];
      var rest := if Prunable(last, protect) && budget > 0 then budget - 1 else budget;
      var kept := Keep(front, protect, rest);
      KeepsBudget(front, protect, rest);
      if Prunable(last, protect) && budget == 0 {
        assert Keep(events, protect, budget) == kept;
      } else {
        assert Keep(events, protect, budget) == kept + [last];
        CountAppend(kept, last, protect);
      }
    }
  }

  lemma CountAppend(events: seq<Item>, last: Item, protect: set<Id>)
    ensures CountPrunable(events + [last], protect) == CountPrunable(events, protect) + (if Prunable(last, protect) then 1 else 0)
  {
    assert (events + [last])[..|events|] == events;
  }

  /** ... and they are the newest: each is newer than everything dropped. */
  lemma {:induction false} KeepsNewest(events: seq<Item>, protect: set<Id>, budget: nat)
    requires Ordered(events)
    ensures forall e <- Keep(events, protect, budget) :: Prunable(e, protect) && 0 < e.sequence ==>
              LastDropped(events, protect, budget) < e.sequence
  {
    if events != [] {
      var front, last := events[..|events| - 1], events[|events| - 1];
      if !Prunable(last, protect) {
        KeepsNewest(front, protect, budget);
      } else if budget == 0 {
        KeepZero(front, protect);
      } else {
        KeepsNewest(front, protect, budget - 1);
        if last.sequence > 0 {
          forall e <- front ensures e.sequence <= last.sequence - 1 {
            var j :| 0 <= j < |front| && front[j] == e;
            assert events[j].sequence < events[|events| - 1].sequence;
          }
          LastDroppedBound(front, protect, budget - 1, last.sequence - 1);
        }
      }
    }
  }

  lemma {:induction false} KeepZero(events: seq<Item>, protect: set<Id>)
    ensures forall e <- Keep(events, protect, 0) :: !Prunable(e, protect)
  {
    if events != [] {
      KeepZero(events[..|events| - 1], protect);
    }
  }

  // ---------- every operation ----------

  /** Each item after an operation is an item before it, possibly resolved, or is new. */
  ghost predicate Descends(l: Ledger, l': Ledger) {
    && l.sequence <= l'.sequence && l.prunedThrough <= l'.prunedThrough && l'.epoch == l.epoch
    && forall e' <- l'.events ::
         || (exists e <- l.events :: Weakens(e, e'))
         || e'.sequence > l.sequence
  }

  /** An item that was open is still stored afterwards. */
  ghost predicate OpenSurvive(l: Ledger, l': Ledger) {
    forall e <- l.events :: Open(e) ==> exists e' <- l'.events :: e'.id == e.id
  }

  lemma PointwiseDescends(l: Ledger, events: seq<Item>)
    requires Pointwise(l.events, events)
    ensures Descends(l, l.(events := events)) && OpenSurvive(l, l.(events := events))
  {
    forall e' <- events ensures exists e <- l.events :: Weakens(e, e') {
      var i :| 0 <= i < |events| && events[i] == e';
      assert l.events[i] in l.events;
    }
    forall e <- l.events | Open(e) ensures exists e' <- events :: e'.id == e.id {
      var i :| 0 <= i < |l.events| && l.events[i] == e;
      assert events[i] in events && Weakens(e, events[i]);
    }
  }

  lemma InsertDescends(l: Ledger, a: Attention)
    ensures Descends(l, Insert(l, a))
    ensures forall e <- l.events :: exists e' <- Insert(l, a).events :: e'.id == e.id && e'.closing == e.closing
  {
    var i := Find(l.events, a);
    var events := Insert(l, a).events;
    forall e' <- events ensures
      || (exists e <- l.events :: Weakens(e, e'))
      || e'.sequence > l.sequence
    {
      var k :| 0 <= k < |events| && events[k] == e';
      if k < |l.events| { assert Weakens(l.events[k], e') && l.events[k] in l.events; }
    }
    forall e <- l.events ensures exists e' <- events :: e'.id == e.id && e'.closing == e.closing {
      var k :| 0 <= k < |l.events| && l.events[k] == e;
      assert events[k] in events;
    }
  }

  lemma PruneDescends(l: Ledger, protect: set<Id>, retention: nat)
    ensures Descends(l, Prune(l, protect, retention))
    ensures forall e <- l.events :: Open(e) || e.id in protect ==> e in Prune(l, protect, retention).events
  {
    KeptOrMarked(l.events, protect, retention);
    forall e' <- Prune(l, protect, retention).events ensures exists e <- l.events :: Weakens(e, e') {
      assert e' in l.events && Weakens(e', e');
    }
  }

  lemma DescendsTransitive(a: Ledger, b: Ledger, c: Ledger)
    requires Descends(a, b) && Descends(b, c)
    ensures Descends(a, c)
  {
    forall e'' <- c.events ensures
      || (exists e <- a.events :: Weakens(e, e''))
      || e''.sequence > a.sequence
    {
      if e' :| e' in b.events && Weakens(e', e'') {
        if e :| e in a.events && Weakens(e, e') { assert Weakens(e, e''); }
      }
    }
  }

  lemma AnswerPointwise(l: Ledger, id: Id, answers: nat, at: nat)
    requires Inv(l) && ById(l.events, id).Some? && Open(ById(l.events, id).value)
    ensures Pointwise(l.events, AnswerAll(l.events, id, answers, at))
  {
    forall i | 0 <= i < |l.events| ensures Weakens(l.events[i], AnswerItem(l.events[i], id, answers, at)) {
      assert l.events[i] in l.events;
      if l.events[i].id == id { SameId(l, l.events[i], ById(l.events, id).value); }
    }
  }

  lemma ClosingStep(l: Ledger, s: Selection, c: Closing)
    requires Inv(l) && c.how != Answered
    ensures var l' := l.(events := CloseAll(l.events, s, c));
      && Inv(l') && Descends(l, l')
      && (forall e <- l.events :: Open(e) ==>
            exists e' <- l'.events :: e'.id == e.id && (Open(e') || e.id in Newly(l.events, s)))
  {
    var l' := l.(events := CloseAll(l.events, s, c));
    CloseAllWeakens(l.events, s, c);
    PointwiseKeepsInv(l, l'.events);
    PointwiseDescends(l, l'.events);
    forall e <- l.events | Open(e)
      ensures exists e' <- l'.events :: e'.id == e.id && (Open(e') || e.id in Newly(l.events, s))
    {
      var i :| 0 <= i < |l.events| && l.events[i] == e;
      assert l'.events[i] in l'.events;
    }
  }

  /** What each operation owes the ledger. */
  ghost predicate Good(l: Ledger, l': Ledger) {
    Inv(l') && Descends(l, l') && OpenSurvive(l, l')
  }

  lemma CloseAndPrune(l: Ledger, s: Selection, c: Closing, protect: set<Id>, retention: nat)
    requires Inv(l) && c.how != Answered && Newly(l.events, s) <= protect
    ensures Good(l, Prune(l.(events := CloseAll(l.events, s, c)), protect, retention))
  {
    var m := l.(events := CloseAll(l.events, s, c));
    var r := Prune(m, protect, retention);
    ClosingStep(l, s, c);
    PruneKeepsInv(m, protect, retention);
    PruneDescends(m, protect, retention);
    DescendsTransitive(l, m, r);
    forall e <- l.events | Open(e) ensures exists e' <- r.events :: e'.id == e.id {
      var e' :| e' in m.events && e'.id == e.id && (Open(e') || e.id in Newly(l.events, s));
      assert e' in r.events;
    }
  }

  lemma AnswerSurvives(l: Ledger, id: Id, answers: nat, at: nat, sel: Selection, retention: nat)
    requires Pointwise(l.events, AnswerAll(l.events, id, answers, at))
    ensures var m := AnswerAll(l.events, id, answers, at);
      OpenSurvive(l, Prune(l.(events := CloseAll(m, sel, Closing(Manual, at))), {id} + Newly(m, sel), retention))
  {
    var m := AnswerAll(l.events, id, answers, at);
    var n := l.(events := CloseAll(m, sel, Closing(Manual, at)));
    var protect := {id} + Newly(m, sel);
    KeptOrMarked(n.events, protect, retention);
    forall f <- l.events | Open(f) ensures exists f' <- Prune(n, protect, retention).events :: f'.id == f.id {
      var i :| 0 <= i < |l.events| && l.events[i] == f;
      assert m[i].id == f.id && m[i] in m && n.events[i] in n.events && n.events[i].id == f.id;
      assert Open(n.events[i]) || n.events[i].id in protect;
    }
  }

  /** Everything answer() does before it prunes. */
  lemma AnswerStep(l: Ledger, id: Id, answers: nat, at: nat, sel: Selection)
    requires Inv(l) && Pointwise(l.events, AnswerAll(l.events, id, answers, at))
    ensures var n := l.(events := CloseAll(AnswerAll(l.events, id, answers, at), sel, Closing(Manual, at)));
      Inv(n) && Descends(l, n)
  {
    var m := l.(events := AnswerAll(l.events, id, answers, at));
    PointwiseKeepsInv(l, m.events);
    PointwiseDescends(l, m.events);
    CloseAllWeakens(m.events, sel, Closing(Manual, at));
    var n := m.(events := CloseAll(m.events, sel, Closing(Manual, at)));
    PointwiseKeepsInv(m, n.events);
    PointwiseDescends(m, n.events);
    DescendsTransitive(l, m, n);
  }

  lemma AnswerPrunes(l: Ledger, id: Id, answers: nat, at: nat, sel: Selection, protect: set<Id>, retention: nat)
    requires Inv(l) && Pointwise(l.events, AnswerAll(l.events, id, answers, at))
    ensures var n := l.(events := CloseAll(AnswerAll(l.events, id, answers, at), sel, Closing(Manual, at)));
      Inv(Prune(n, protect, retention)) && Descends(l, Prune(n, protect, retention))
  {
    var n := l.(events := CloseAll(AnswerAll(l.events, id, answers, at), sel, Closing(Manual, at)));
    AnswerStep(l, id, answers, at, sel);
    PruneKeepsInv(n, protect, retention);
    PruneDescends(n, protect, retention);
    DescendsTransitive(l, n, Prune(n, protect, retention));
  }

  lemma AnswerGood(l: Ledger, id: Id, answers: nat, waiting: bool, at: nat, retention: nat)
    requires Inv(l) && AnswerRefusal(l, id, Some(answers), waiting).None?
    ensures Good(l, Apply(l, Answer(id, Some(answers), waiting, at), retention))
  {
    var sel := OlderPlain(ById(l.events, id).value.sequence);
    AnswerPointwise(l, id, answers, at);
    AnswerPrunes(l, id, answers, at, sel, {id} + Newly(AnswerAll(l.events, id, answers, at), sel), retention);
    AnswerSurvives(l, id, answers, at, sel, retention);
  }

  /** Open afterwards, or resolved by this very pass. */
  ghost predicate OpenOrIn(l: Ledger, m: Ledger, ids: set<Id>) {
    forall e <- l.events :: Open(e) ==> exists e' <- m.events :: e'.id == e.id && (Open(e') || e.id in ids)
  }

  lemma PassOpen(l: Ledger, m: Ledger, ids: set<Id>, s: Selection, c: Closing)
    requires OpenOrIn(l, m, ids)
    ensures OpenOrIn(l, m.(events := CloseAll(m.events, s, c)), ids + Newly(m.events, s))
  {
    var events := CloseAll(m.events, s, c);
    forall e <- l.events | Open(e)
      ensures exists e' <- events :: e'.id == e.id && (Open(e') || e.id in ids + Newly(m.events, s))
    {
      var f :| f in m.events && f.id == e.id && (Open(f) || e.id in ids);
      var i :| 0 <= i < |m.events| && m.events[i] == f;
      assert events[i] in events && events[i].id == e.id;
    }
  }

  /** An optional resolving pass, as record() runs it. */
  lemma PassGood(l: Ledger, m: Ledger, ids: set<Id>, s: Selection, c: Closing)
    requires Inv(m) && Descends(l, m) && OpenOrIn(l, m, ids) && c.how != Answered
    ensures var m' := m.(events := CloseAll(m.events, s, c));
      Inv(m') && Descends(l, m') && OpenOrIn(l, m', ids + Newly(m.events, s))
  {
    PassOpen(l, m, ids, s, c);
    CloseAllWeakens(m.events, s, c);
    PointwiseKeepsInv(m, CloseAll(m.events, s, c));
    PointwiseDescends(m, CloseAll(m.events, s, c));
    DescendsTransitive(l, m, m.(events := CloseAll(m.events, s, c)));
  }

  lemma InsertStep(l: Ledger, m: Ledger, ids: set<Id>, a: Attention)
    requires Inv(m) && Descends(l, m) && OpenOrIn(l, m, ids)
    ensures Inv(Insert(m, a)) && Descends(l, Insert(m, a)) && OpenOrIn(l, Insert(m, a), ids)
  {
    InsertKeepsInv(m, a);
    InsertDescends(m, a);
    DescendsTransitive(l, m, Insert(m, a));
    forall e <- l.events | Open(e)
      ensures exists e' <- Insert(m, a).events :: e'.id == e.id && (Open(e') || e.id in ids)
    {
      var f :| f in m.events && f.id == e.id && (Open(f) || e.id in ids);
      var g :| g in Insert(m, a).events && g.id == f.id && g.closing == f.closing;
    }
  }

  lemma PassesGood(l: Ledger, o: Observation, at: nat)
    requires Inv(l) && (o.resolve.Some? ==> o.resolve.value != Answered)
    ensures var m := l.(events := AfterPasses(l, o, at));
      Inv(m) && Descends(l, m) && OpenOrIn(l, m, RecordResolves(l, o, at))
  {
    PointwiseDescends(l, l.events);
    var n1 := if o.resolve.Some? then Newly(l.events, FirstPass(o)) else {};
    var m1 := l.(events := AfterFirstPass(l, o, at));
    if o.resolve.Some? {
      PassGood(l, l, {}, FirstPass(o), Closing(o.resolve.value, at));
      assert {} + n1 == n1;
    }
    if o.toolComplete.Some? {
      PassGood(l, m1, n1, AskCall(o.toolComplete.value), Closing(ToolComplete, at));
    } else {
      assert n1 + {} == n1;
    }
  }

  lemma RecordedGood(l: Ledger, o: Observation, at: nat, retention: nat)
    requires Inv(l) && (o.resolve.Some? ==> o.resolve.value != Answered)
    ensures Good(l, Recorded(l, o, at, retention))
  {
    var resolved := RecordResolves(l, o, at);
    var m2 := l.(events := AfterPasses(l, o, at));
    PassesGood(l, o, at);
    var m3 := if o.attention.Some? then Insert(m2, o.attention.value) else m2;
    if o.attention.Some? { InsertStep(l, m2, resolved, o.attention.value); }
    FinishPrune(l, m3, resolved, retention);
  }

  lemma FinishPrune(l: Ledger, m: Ledger, protect: set<Id>, retention: nat)
    requires Inv(m) && Descends(l, m) && OpenOrIn(l, m, protect)
    ensures Good(l, Prune(m, protect, retention))
  {
    PruneKeepsInv(m, protect, retention);
    PruneDescends(m, protect, retention);
    DescendsTransitive(l, m, Prune(m, protect, retention));
    forall e <- l.events | Open(e) ensures exists e' <- Prune(m, protect, retention).events :: e'.id == e.id {
      var e' :| e' in m.events && e'.id == e.id && (Open(e') || e.id in protect);
      assert e' in Prune(m, protect, retention).events;
    }
  }

  lemma AckOpen(l: Ledger, ids: set<Id>, at: nat)
    ensures OpenOrIn(l, l.(events := AckAll(l.events, ids, at)), {})
    ensures Pointwise(l.events, AckAll(l.events, ids, at))
  {
    var events := AckAll(l.events, ids, at);
    forall e <- l.events | Open(e) ensures exists e' <- events :: e'.id == e.id && (Open(e') || e.id in {}) {
      var i :| 0 <= i < |l.events| && l.events[i] == e;
      assert events[i] in events && Open(events[i]) && events[i].id == e.id;
    }
  }

  lemma AckGood(l: Ledger, ids: set<Id>, at: nat, retention: nat)
    requires Inv(l)
    ensures Good(l, Prune(l.(events := AckAll(l.events, ids, at)), {}, retention))
  {
    var m := l.(events := AckAll(l.events, ids, at));
    AckOpen(l, ids, at);
    PointwiseKeepsInv(l, m.events);
    PointwiseDescends(l, m.events);
    FinishPrune(l, m, {}, retention);
  }

  lemma UnchangedGood(l: Ledger)
    requires Inv(l)
    ensures Good(l, l)
  {
    PointwiseDescends(l, l.events);
  }

  lemma MutateGood(l: Ledger, ids: set<Id>, mutation: Mutation, at: nat, retention: nat)
    requires Inv(l)
    ensures Good(l, Apply(l, Mutate(ids, mutation, at), retention))
  {
    var after := Apply(l, Mutate(ids, mutation, at), retention);
    if MutateRefused(l, ids) {
      UnchangedGood(l);
    } else if mutation == Ack {
      AckGood(l, ids, at, retention);
      assert after == Prune(l.(events := AckAll(l.events, ids, at)), {}, retention);
    } else {
      CloseAndPrune(l, Chosen(ids), Closing(Manual, at), ids, retention);
    }
  }

  lemma ResolveGood(l: Ledger, id: Id, at: nat, retention: nat)
    requires Inv(l)
    ensures Good(l, Apply(l, ResolveThrough(id, at), retention))
  {
    PointwiseDescends(l, l.events);
    var found := ById(l.events, id);
    if found.Some? {
      var s := Through(found.value);
      CloseAndPrune(l, s, Closing(Manual, at), Newly(l.events, s), retention);
    }
  }

  lemma ApplyGood(l: Ledger, op: Op, retention: nat)
    requires Inv(l) && Proper(op) && !op.LoseFile?
    ensures Good(l, Apply(l, op, retention))
  {
    match op
    case Record(o, at) => RecordedGood(l, o, at, retention);
    case ResolveThrough(id, at) => ResolveGood(l, id, at, retention);
    case Answer(id, answers, waiting, at) =>
      if AnswerRefusal(l, id, answers, waiting).None? { AnswerGood(l, id, answers.value, waiting, at, retention); }
      else { PointwiseDescends(l, l.events); }
    case Mutate(ids, mutation, at) => MutateGood(l, ids, mutation, at, retention);
  }

  // ---------- whole runs ----------

  const EMPTY := Ledger(0, 0, 0, [])

  function Run(l: Ledger, ops: seq<Op>, retention: nat): Ledger {
    if ops == [] then l else Apply(Run(l, ops[..|ops| - 1], retention), ops[|ops| - 1], retention)
  }

  lemma {:induction false} RunInv(l: Ledger, ops: seq<Op>, retention: nat)
    requires Inv(l) && forall op <- ops :: Proper(op)
    ensures Inv(Run(l, ops, retention))
  {
    if ops != [] {
      RunInv(l, ops[..|ops| - 1], retention);
      var m := Run(l, ops[..|ops| - 1], retention);
      if ops[|ops| - 1] != LoseFile { ApplyGood(m, ops[|ops| - 1], retention); }
    }
  }

  lemma {:induction false} RunDescends(l: Ledger, ops: seq<Op>, retention: nat)
    requires Inv(l) && forall op <- ops :: Proper(op) && op != LoseFile
    ensures Descends(l, Run(l, ops, retention))
  {
    if ops == [] {
      PointwiseDescends(l, l.events);
    } else {
      var m := Run(l, ops[..|ops| - 1], retention);
      RunDescends(l, ops[..|ops| - 1], retention);
      RunInv(l, ops[..|ops| - 1], retention);
      ApplyGood(m, ops[|ops| - 1], retention);
      DescendsTransitive(l, m, Run(l, ops, retention));
    }
  }

  /** Once an item is resolved, no later operation changes how, when or with what answer. */
  lemma ResolvedOnce(l: Ledger, ops: seq<Op>, retention: nat, e: Item, e': Item)
    requires Inv(l) && forall op <- ops :: Proper(op) && op != LoseFile
    requires e in l.events && !Open(e)
    requires e' in Run(l, ops, retention).events && e'.id == e.id
    ensures e'.closing == e.closing && e'.answer == e.answer
  {
    RunDescends(l, ops, retention);
    assert NumberedItem(e, l.sequence);
    RunInv(l, ops, retention);
    assert NumberedItem(e', Run(l, ops, retention).sequence);
    var f :| f in l.events && Weakens(f, e');
    SameId(l, e, f);
  }

  /** At any time of any life of the ledger: an answer exactly where the resolution is
      `answered`, one open item per source, one question item per call, and different
      texts for the open items that have no source. */
  lemma StoredItemsFit(ops: seq<Op>, retention: nat, e: Item, f: Item)
    requires forall op <- ops :: Proper(op)
    requires e in Run(EMPTY, ops, retention).events && f in Run(EMPTY, ops, retention).events
    ensures e.answer.Some? <==> e.closing.Some? && e.closing.value.how == Answered
    ensures e.source.Some? && e.source == f.source && Open(e) && Open(f) ==> e.id == f.id
    ensures e.source.Some? && e.source == f.source && e.kind == AskUser && f.kind == AskUser ==> e.id == f.id
    ensures e.source.None? && f.source.None? && Open(e) && Open(f) && e.fingerprint == f.fingerprint ==> e.id == f.id
  {
    RunInv(EMPTY, ops, retention);
    var l := Run(EMPTY, ops, retention);
    assert NumberedItem(e, l.sequence) && NumberedItem(f, l.sequence);
    assert e.sequence != f.sequence ==> !Clash(e, f);
  }

  /** Pruning never takes an item that was open when the operation began. */
  lemma OpenItemsStay(ops: seq<Op>, op: Op, retention: nat, e: Item)
    requires (forall o <- ops :: Proper(o)) && Proper(op) && op != LoseFile
    requires e in Run(EMPTY, ops, retention).events && Open(e)
    ensures exists e' <- Apply(Run(EMPTY, ops, retention), op, retention).events :: e'.id == e.id
  {
    RunInv(EMPTY, ops, retention);
    ApplyGood(Run(EMPTY, ops, retention), op, retention);
  }
}

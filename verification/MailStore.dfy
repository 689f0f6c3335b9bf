/** The inbox file of one session. */
module MailStore {
  import opened Results

  // Messages are appended, marked delivered once and rewritten under a cap; a checkpoint keeps
  // the notices about a pull request free of repeats.

  const MAX_STORED_MESSAGES: nat := 500

  datatype PrState = InProgress | Failed | Passed | Merged | Closed | Unknown

  /** The id of a pull-request notice is a hash of these four values. */
  datatype MessageId = Given(n: nat) | PrEvent(link: nat, ordinal: nat, state: PrState, head: Option<nat>)

  datatype Delivery = Delivery(at: nat, via: Via)
  datatype Via = Poll | Drain | Cli

  datatype Message = Message(id: MessageId, body: nat, delivery: Option<Delivery>)

  datatype Checkpoint = Checkpoint(link: nat, state: PrState, head: Option<nat>, ordinal: nat)

  datatype Inbox = Inbox(messages: seq<Message>, checkpoint: Option<Checkpoint>)

  datatype Observation = Observation(stale: bool, checked: bool, reason: bool, state: PrState, head: Option<nat>)

  predicate Delivered(m: Message) {
    m.delivery.Some?
  }

  // ---------- delivery marking ----------

  predicate Marks(ids: set<MessageId>, m: Message) {
    m.id in ids && !Delivered(m)
  }

  function Mark(ids: set<MessageId>, d: Delivery, m: Message): Message {
    if Marks(ids, m) then m.(delivery := Some(d)) else m
  }

  function MarkAll(messages: seq<Message>, ids: set<MessageId>, d: Delivery): (r: seq<Message>)
    ensures |r| == |messages| && forall i :: 0 <= i < |r| ==> r[i] == Mark(ids, d, messages[i])
  {
    seq(|messages|, i requires 0 <= i < |messages| => Mark(ids, d, messages[i]))
  }

  function NewlyMarked(messages: seq<Message>, ids: set<MessageId>, d: Delivery): seq<Message> {
    if messages == [] then []
    else
      var last := messages[|messages| - 1];
      NewlyMarked(messages[..|messages| - 1], ids, d) + (if Marks(ids, last) then [Mark(ids, d, last)] else [])
  }

  function Undelivered(messages: seq<Message>): seq<Message> {
    if messages == [] then []
    else (if Delivered(messages[0]) then [] else [messages[0]]) + Undelivered(messages[1..])
  }

  /** The filter with the counter: drop the first `toDrop` delivered messages. */
  function DropOldest(messages: seq<Message>, toDrop: int): seq<Message> {
    if messages == [] then []
    else if toDrop > 0 && Delivered(messages[0]) then DropOldest(messages[1..], toDrop - 1)
    else [messages[0]] + DropOldest(messages[1..], toDrop)
  }

  function Marking(inbox: Inbox, ids: set<MessageId>, d: Delivery): (Inbox, seq<Message>) {
    var marked := NewlyMarked(inbox.messages, ids, d);
    if marked == [] then (inbox, [])
    else
      var all := MarkAll(inbox.messages, ids, d);
      (inbox.(messages := DropOldest(all, |all| - MAX_STORED_MESSAGES)), marked)
  }

  // ---------- pull-request observations ----------

  predicate Usable(o: Observation) {
    && !o.stale && o.checked && !o.reason
    && (o.state == InProgress || o.state == Failed || o.state == Passed || o.state == Merged)
    && (o.state == Merged || o.head.Some?)
  }

  function Prior(inbox: Inbox, link: nat): Option<Checkpoint> {
    if inbox.checkpoint.Some? && inbox.checkpoint.value.link == link then inbox.checkpoint else None
  }

  predicate Repeats(prior: Option<Checkpoint>, o: Observation) {
    prior.Some? && (prior.value.state == Merged || (prior.value.state == o.state && prior.value.head == o.head))
  }

  function Notice(link: nat, ordinal: nat, o: Observation, body: nat): Message {
    Message(PrEvent(link, ordinal, o.state, o.head), body, None)
  }

  function Commit(inbox: Inbox, link: nat, o: Observation, body: nat): (Inbox, Option<MessageId>) {
    if !Usable(o) || Repeats(Prior(inbox, link), o) then (inbox, None)
    else
      var ordinal := (if Prior(inbox, link).Some? then Prior(inbox, link).value.ordinal else 0) + 1;
      var checkpoint := Some(Checkpoint(link, o.state, o.head, ordinal));
      if o.state == InProgress then (Inbox(inbox.messages, checkpoint), None)
      else
        var m := Notice(link, ordinal, o, body);
        (Inbox(inbox.messages + [m], checkpoint), Some(m.id))
  }

  // ---------- the store ----------

  class Store {
    var messages: seq<Message>
    var checkpoint: Option<Checkpoint>

    function Contents(): Inbox
      reads this
    {
      Inbox(messages, checkpoint)
    }

    constructor ()
      ensures Contents() == Inbox([], None)
    {
      messages, checkpoint := [], None;
    }

    method Append(m: Message)
      modifies this`messages
      ensures messages == old(messages) + [m]
    {
      messages := messages + [m];
    }

    /** The marking loop, on a copy of the messages. */
    static method MarkPass(messages: seq<Message>, ids: set<MessageId>, d: Delivery)
      returns (all: seq<Message>, marked: seq<Message>)
      ensures all == MarkAll(messages, ids, d) && marked == NewlyMarked(messages, ids, d)
    {
      all, marked := messages, [];
      for i := 0 to |all|
        invariant |all| == |messages|
        invariant forall k :: 0 <= k < i ==> all[k] == Mark(ids, d, messages[k])
        invariant forall k :: i <= k < |all| ==> all[k] == messages[k]
        invariant marked == NewlyMarked(messages[..i], ids, d)
      {
        assert messages[..i + 1][..i] == messages[..i];
        if all[i].id in ids && all[i].delivery.None? {
          all := all[i := all[i].(delivery := Some(d))];
          marked := marked + [all[i]];
        }
      }
      assert messages[..|messages|] == messages;
    }

    /** The filter that counts down what is to be dropped. */
    static method DropPass(all: seq<Message>) returns (kept: seq<Message>)
      ensures kept == DropOldest(all, |all| - MAX_STORED_MESSAGES)
    {
      var toDrop := |all| - MAX_STORED_MESSAGES;
      kept := [];
      assert all[0..] == all;
      for i := 0 to |all|
        invariant DropOldest(all, |all| - MAX_STORED_MESSAGES) == kept + DropOldest(all[i..], toDrop)
      {
        assert all[i..][1..] == all[i + 1..];
        if toDrop > 0 && all[i].delivery.Some? {
          toDrop := toDrop - 1;
        } else {
          kept := kept + [all[i]];
        }
      }
      assert all[|all|..] == [] && kept + [] == kept;
    }

    method MarkDelivered(ids: set<MessageId>, d: Delivery) returns (marked: seq<Message>)
      modifies this`messages
      ensures (Contents(), marked) == Marking(old(Contents()), ids, d)
    {
      if ids == {} {
        NothingToMark(messages, d);
        return [];
      }
      var all;
      all, marked := MarkPass(messages, ids, d);
      if |marked| == 0 { return; }
      messages := DropPass(all);
    }

    method CommitPullRequestObservation(link: nat, o: Observation, body: nat) returns (id: Option<MessageId>)
      modifies this
      ensures (Contents(), id) == Commit(old(Contents()), link, o, body)
    {
      if o.stale || !o.checked || o.reason || o.state == Closed || o.state == Unknown || (o.state != Merged && o.head.None?) {
        return None;
      }
      var prior := if checkpoint.Some? && checkpoint.value.link == link then checkpoint else None;
      if prior.Some? && (prior.value.state == Merged || (prior.value.state == o.state && prior.value.head == o.head)) {
        return None;
      }
      var ordinal := (if prior.Some? then prior.value.ordinal else 0) + 1;
      checkpoint := Some(Checkpoint(link, o.state, o.head, ordinal));
      id := None;
      if o.state != InProgress {
        id := Some(PrEvent(link, ordinal, o.state, o.head));
        messages := messages + [Message(id.value, body, None)];
      }
    }
  }

  lemma {:induction false} NothingToMark(messages: seq<Message>, d: Delivery)
    ensures NewlyMarked(messages, {}, d) == []
  {
    if messages != [] { NothingToMark(messages[..|messages| - 1], d); }
  }

  // ---------- what a rewrite drops ----------

  function CountDelivered(messages: seq<Message>): nat {
    if messages == [] then 0 else (if Delivered(messages[0]) then 1 else 0) + CountDelivered(messages[1..])
  }

  function Min(a: int, b: int): int {
    if a < b then a else b
  }

  /** A rewrite keeps the order and drops only the oldest delivered messages: up to some
      point only undelivered ones are left, after it everything is. */
  lemma {:induction false} DropsOldestDelivered(messages: seq<Message>, toDrop: int) returns (cut: nat)
    ensures cut <= |messages|
    ensures DropOldest(messages, toDrop) == Undelivered(messages[..cut]) + messages[cut..]
    ensures CountDelivered(messages[..cut]) == (if toDrop <= 0 then 0 else Min(toDrop, CountDelivered(messages)))
  {
    if toDrop <= 0 {
      cut := 0;
      DropNone(messages, toDrop);
    } else if messages == [] {
      cut := 0;
    } else {
      var next := DropsOldestDelivered(messages[1..], if Delivered(messages[0]) then toDrop - 1 else toDrop);
      cut := next + 1;
      assert messages[..cut][1..] == messages[1..][..next] && messages[cut..] == messages[1..][next..];
    }
  }

  lemma {:induction false} DropNone(messages: seq<Message>, toDrop: int)
    requires toDrop <= 0
    ensures DropOldest(messages, toDrop) == messages
  {
    if messages != [] { DropNone(messages[1..], toDrop); }
  }

  lemma {:induction false} DropLength(messages: seq<Message>, toDrop: int)
    ensures |DropOldest(messages, toDrop)| == |messages| - (if toDrop <= 0 then 0 else Min(toDrop, CountDelivered(messages)))
  {
    if messages != [] {
      DropLength(messages[1..], if toDrop > 0 && Delivered(messages[0]) then toDrop - 1 else toDrop);
    }
  }

  /** After a rewrite the file holds max(undelivered, min(total, 500)) messages, and the
      checkpoint is untouched. */
  lemma RewriteSize(inbox: Inbox, ids: set<MessageId>, d: Delivery)
    requires NewlyMarked(inbox.messages, ids, d) != []
    ensures var all := MarkAll(inbox.messages, ids, d);
      var undelivered := |all| - CountDelivered(all);
      var capped := if |all| < 500 then |all| else 500;
      && |Marking(inbox, ids, d).0.messages| == (if undelivered > capped then undelivered else capped)
      && Marking(inbox, ids, d).0.checkpoint == inbox.checkpoint
  {
    DropLength(MarkAll(inbox.messages, ids, d), |inbox.messages| - MAX_STORED_MESSAGES);
  }

  // ---------- conservation over whole runs ----------

  datatype Op =
    | DoAppend(m: Message)
    | DoMark(ids: set<MessageId>, d: Delivery)
    | DoCommit(link: nat, observation: Observation, body: nat)

  /** The inbox with two histories: what was ever stored in it and what markDelivered
      ever returned, both without the delivery stamps. */
  datatype History = History(inbox: Inbox, stored: seq<Message>, returned: seq<Message>)

  function Plain(m: Message): Message {
    m.(delivery := None)
  }

  function Plains(messages: seq<Message>): (r: seq<Message>)
    ensures |r| == |messages| && forall i :: 0 <= i < |r| ==> r[i] == Plain(messages[i])
  {
    seq(|messages|, i requires 0 <= i < |messages| => Plain(messages[i]))
  }

  function Do(h: History, op: Op): History {
    match op
    case DoAppend(m) => History(h.inbox.(messages := h.inbox.messages + [Plain(m)]), h.stored + [Plain(m)], h.returned)
    case DoMark(ids, d) =>
      var (inbox, marked) := Marking(h.inbox, ids, d);
      History(inbox, h.stored, h.returned + Plains(marked))
    case DoCommit(link, o, body) =>
      var (inbox, id) := Commit(h.inbox, link, o, body);
      History(inbox, h.stored + inbox.messages[|h.inbox.messages|..], h.returned)
  }

  const EMPTY := History(Inbox([], None), [], [])

  function Run(ops: seq<Op>): History {
    if ops == [] then EMPTY else Do(Run(ops[..|ops| - 1]), ops[|ops| - 1])
  }

  lemma {:induction false} UndeliveredAppend(messages: seq<Message>, m: Message)
    ensures Undelivered(messages + [m]) == Undelivered(messages) + (if Delivered(m) then [] else [m])
  {
    if messages == [] {
      assert messages + [m] == [m];
    } else {
      UndeliveredAppend(messages[1..], m);
      assert (messages + [m])[1..] == messages[1..] + [m];
    }
  }

  lemma {:induction false} DropKeepsUndelivered(messages: seq<Message>, toDrop: int)
    ensures Undelivered(DropOldest(messages, toDrop)) == Undelivered(messages)
  {
    if messages != [] {
      if toDrop > 0 && Delivered(messages[0]) {
        DropKeepsUndelivered(messages[1..], toDrop - 1);
      } else {
        DropKeepsUndelivered(messages[1..], toDrop);
        assert ([messages[0]] + DropOldest(messages[1..], toDrop))[1..] == DropOldest(messages[1..], toDrop);
      }
    }
  }

  lemma PlainsAppend(a: seq<Message>, b: seq<Message>)
    ensures Plains(a + b) == Plains(a) + Plains(b)
  {
  }

  lemma PlainsLast(a: seq<Message>, m: Message)
    ensures multiset(Plains(a + [m])) == multiset(Plains(a)) + multiset{Plain(m)}
  {
    PlainsAppend(a, [m]);
    assert Plains([m]) == [Plain(m)];
  }

  lemma MarkLast(front: seq<Message>, last: Message, ids: set<MessageId>, d: Delivery)
    ensures var mark := Mark(ids, d, last);
      && MarkAll(front + [last], ids, d) == MarkAll(front, ids, d) + [mark]
      && NewlyMarked(front + [last], ids, d)
         == NewlyMarked(front, ids, d) + (if Marks(ids, last) then [mark] else [])
  {
    assert (front + [last])[..|front|] == front;
  }

  /** Marking moves messages from the undelivered to the returned, none lost, none twice. */
  lemma {:induction false} MarkMoves(messages: seq<Message>, ids: set<MessageId>, d: Delivery)
    ensures multiset(Plains(Undelivered(messages)))
         == multiset(Plains(Undelivered(MarkAll(messages, ids, d)))) + multiset(Plains(NewlyMarked(messages, ids, d)))
  {
    if messages != [] {
      var front, last := messages[..|messages| - 1], messages[|messages| - 1];
      MarkMoves(front, ids, d);
      assert messages == front + [last];
      MarkLast(front, last, ids, d);
      MoveLast(front, last, ids, d);
    }
  }

  lemma MoveLast(front: seq<Message>, last: Message, ids: set<MessageId>, d: Delivery)
    requires multiset(Plains(Undelivered(front)))
          == multiset(Plains(Undelivered(MarkAll(front, ids, d)))) + multiset(Plains(NewlyMarked(front, ids, d)))
    ensures multiset(Plains(Undelivered(front + [last])))
         == multiset(Plains(Undelivered(MarkAll(front, ids, d) + [Mark(ids, d, last)])))
            + multiset(Plains(NewlyMarked(front, ids, d)
                              + (if Marks(ids, last) then [Mark(ids, d, last)] else [])))
  {
    var mark := Mark(ids, d, last);
    var before, after, marked := Undelivered(front), Undelivered(MarkAll(front, ids, d)), NewlyMarked(front, ids, d);
    UndeliveredAppend(front, last);
    UndeliveredAppend(MarkAll(front, ids, d), mark);
    if Delivered(last) {
      assert before + [] == before && after + [] == after && marked + [] == marked;
    } else if Marks(ids, last) {
      PlainsLast(before, last);
      PlainsLast(marked, mark);
      assert after + [] == after;
    } else {
      PlainsLast(before, last);
      PlainsLast(after, mark);
      assert marked + [] == marked;
    }
  }

  ghost predicate Conserved(h: History) {
    multiset(h.stored) == multiset(Plains(Undelivered(h.inbox.messages))) + multiset(h.returned)
  }

  lemma MarkConserves(h: History, ids: set<MessageId>, d: Delivery)
    requires Conserved(h)
    ensures Conserved(Do(h, DoMark(ids, d)))
  {
    MarkMoves(h.inbox.messages, ids, d);
    var all := MarkAll(h.inbox.messages, ids, d);
    DropKeepsUndelivered(all, |all| - MAX_STORED_MESSAGES);
    if NewlyMarked(h.inbox.messages, ids, d) == [] {
      assert h.returned + Plains([]) == h.returned;
    }
  }

  lemma StoreConserves(h: History, m: Message)
    requires Conserved(h) && !Delivered(m)
    ensures Conserved(History(h.inbox.(messages := h.inbox.messages + [m]), h.stored + [m], h.returned))
  {
    UndeliveredAppend(h.inbox.messages, m);
    PlainsAppend(Undelivered(h.inbox.messages), [m]);
    assert Plains([m]) == [m];
  }

  lemma CommitConserves(h: History, link: nat, o: Observation, body: nat)
    requires Conserved(h)
    ensures Conserved(Do(h, DoCommit(link, o, body)))
  {
    var inbox := Commit(h.inbox, link, o, body).0;
    if |inbox.messages| > |h.inbox.messages| {
      var m := inbox.messages[|h.inbox.messages|];
      assert inbox.messages[|h.inbox.messages|..] == [m];
      StoreConserves(h, m);
    } else {
      assert h.stored + inbox.messages[|h.inbox.messages|..] == h.stored;
    }
  }

  /** Whatever the order of appends, commits and deliveries: the messages ever stored are
      exactly those still undelivered and those some delivery returned, each once. */
  lemma {:induction false} NothingLostNothingTwice(ops: seq<Op>)
    ensures Conserved(Run(ops))
  {
    if ops != [] {
      NothingLostNothingTwice(ops[..|ops| - 1]);
      var h := Run(ops[..|ops| - 1]);
      match ops[|ops| - 1]
      case DoAppend(m) => StoreConserves(h, Plain(m));
      case DoMark(ids, d) => MarkConserves(h, ids, d);
      case DoCommit(link, o, body) => CommitConserves(h, link, o, body);
    }
  }

  // ---------- the notices of one link ----------

  function Usables(observations: seq<Observation>): seq<Observation> {
    if observations == [] then []
    else
      var last := observations[|observations| - 1];
      Usables(observations[..|observations| - 1]) + (if Usable(last) then [last] else [])
  }

  predicate SameKey(a: Observation, b: Observation) {
    a.state == b.state && a.head == b.head
  }

  /** Consecutive repeats of state and head removed. */
  function Squeeze(observations: seq<Observation>): seq<Observation> {
    if |observations| <= 1 then observations
    else
      var front, last := observations[..|observations| - 1], observations[|observations| - 1];
      if SameKey(front[|front| - 1], last) then Squeeze(front) else Squeeze(front) + [last]
  }

  /** Everything after the first merge removed. */
  function UpToMerge(observations: seq<Observation>): seq<Observation> {
    if observations == [] then []
    else if observations[0].state == Merged then [observations[0]]
    else [observations[0]] + UpToMerge(observations[1..])
  }

  /** What ought to be committed for one link. */
  function Committed(observations: seq<Observation>): seq<Observation> {
    UpToMerge(Squeeze(Usables(observations)))
  }

  function ObservationsOf(ops: seq<Op>): seq<Observation> {
    if ops == [] then []
    else
      ObservationsOf(ops[..|ops| - 1])
      + (if ops[|ops| - 1].DoCommit? then [ops[|ops| - 1].observation] else [])
  }

  function IdsOf(messages: seq<Message>): seq<MessageId> {
    seq(|messages|, i requires 0 <= i < |messages| => messages[i].id)
  }

  /** The ids of the messages that were added at the end. */
  function Mailed(before: Inbox, after: Inbox): seq<MessageId> {
    if |before.messages| <= |after.messages| then IdsOf(after.messages[|before.messages|..]) else []
  }

  /** The notices that commits put into the inbox. */
  function NoticesOf(ops: seq<Op>): seq<MessageId> {
    if ops == [] then []
    else
      var h := Run(ops[..|ops| - 1]);
      var earlier := NoticesOf(ops[..|ops| - 1]);
      match ops[|ops| - 1]
      case DoCommit(link, o, body) => earlier + Mailed(h.inbox, Commit(h.inbox, link, o, body).0)
      case _ => earlier
  }

  /** The notices a committed sequence calls for: one for each that is not in progress. */
  function Called(link: nat, committed: seq<Observation>): seq<MessageId> {
    if committed == [] then []
    else
      var last := committed[|committed| - 1];
      Called(link, committed[..|committed| - 1])
      + (if last.state == InProgress then [] else [PrEvent(link, |committed|, last.state, last.head)])
  }

  /** The checkpoint that stands for a committed sequence. */
  predicate Stands(checkpoint: Option<Checkpoint>, link: nat, committed: seq<Observation>) {
    if committed == [] then checkpoint.None?
    else
      var last := committed[|committed| - 1];
      checkpoint == Some(Checkpoint(link, last.state, last.head, |committed|))
  }

  lemma {:induction false} UpToMergeAppend(observations: seq<Observation>, o: Observation)
    ensures var u := UpToMerge(observations);
      UpToMerge(observations + [o]) == if u != [] && u[|u| - 1].state == Merged then u else observations + [o]
    ensures var u := UpToMerge(observations);
      (u != [] && u[|u| - 1].state == Merged) || u == observations
    ensures observations != [] ==> UpToMerge(observations) != []
  {
    if observations == [] {
      assert observations + [o] == [o];
    } else {
      assert (observations + [o])[1..] == observations[1..] + [o];
      if observations[0].state != Merged {
        UpToMergeAppend(observations[1..], o);
      }
    }
  }

  lemma {:induction false} SqueezeLast(observations: seq<Observation>)
    ensures observations != [] ==> var s := Squeeze(observations);
      s != [] && SameKey(s[|s| - 1], observations[|observations| - 1])
    ensures observations == [] ==> Squeeze(observations) == []
  {
    if |observations| > 1 { SqueezeLast(observations[..|observations| - 1]); }
  }

  lemma {:induction false} SqueezeMore(observations: seq<Observation>, o: Observation)
    requires observations != []
    ensures Squeeze(observations + [o])
         == if SameKey(observations[|observations| - 1], o) then Squeeze(observations) else Squeeze(observations) + [o]
  {
    var more := observations + [o];
    assert |more| > 1 && more[|more| - 1] == o && more[..|more| - 1] == observations;
    assert more[..|more| - 1][|more| - 2] == observations[|observations| - 1];
  }

  lemma SameKeyOn(s: seq<Observation>, last: Observation, o: Observation)
    requires s != [] && SameKey(s[|s| - 1], last)
    ensures SameKey(s[|s| - 1], o) <==> SameKey(last, o)
  {
  }

  lemma {:induction false} SqueezeNext(observations: seq<Observation>, o: Observation)
    ensures var s := Squeeze(observations);
      Squeeze(observations + [o]) == if s != [] && SameKey(s[|s| - 1], o) then s else s + [o]
  {
    if observations == [] {
      assert observations + [o] == [o];
    } else {
      SqueezeLast(observations);
      SqueezeMore(observations, o);
      SameKeyOn(Squeeze(observations), observations[|observations| - 1], o);
    }
  }

  /** One more usable observation is committed unless it repeats or comes after the merge. */
  lemma {:induction false} CommittedNext(usables: seq<Observation>, o: Observation)
    ensures var c := UpToMerge(Squeeze(usables));
      UpToMerge(Squeeze(usables + [o]))
        == if c != [] && (c[|c| - 1].state == Merged || SameKey(c[|c| - 1], o)) then c else c + [o]
  {
    var s := Squeeze(usables);
    var c := UpToMerge(s);
    SqueezeNext(usables, o);
    UpToMergeAppend(s, o);
    if c != [] && c[|c| - 1].state == Merged {
      assert UpToMerge(s + [o]) == c;
    } else {
      assert c == s && UpToMerge(s + [o]) == s + [o];
    }
  }

  /** What ought to be committed, after one more observation. */
  function Extended(c: seq<Observation>, o: Observation): seq<Observation> {
    if Usable(o) && !(c != [] && (c[|c| - 1].state == Merged || SameKey(c[|c| - 1], o))) then c + [o] else c
  }

  /** One commit, seen from the committed sequence it extends. */
  lemma {:induction false} CommitExtends(inbox: Inbox, link: nat, c: seq<Observation>, o: Observation, body: nat)
    requires Stands(inbox.checkpoint, link, c)
    ensures var c' := Extended(c, o);
      var (inbox', id) := Commit(inbox, link, o, body);
      && Stands(inbox'.checkpoint, link, c')
      && Called(link, c') == Called(link, c) + Mailed(inbox, inbox')
  {
    assert (c + [o])[..|c|] == c;
    CommitMails(inbox, link, o, body);
    assert Called(link, c) + [] == Called(link, c);
  }

  /** A commit adds its notice to the inbox or nothing, and answers with the id it added. */
  lemma {:induction false} CommitMails(inbox: Inbox, link: nat, o: Observation, body: nat)
    ensures var (inbox', id) := Commit(inbox, link, o, body);
      && inbox'.messages == inbox.messages + (if id.Some? then [Message(id.value, body, None)] else [])
      && Mailed(inbox, inbox') == if id.Some? then [id.value] else []
  {
    var (inbox', id) := Commit(inbox, link, o, body);
    assert inbox.messages + [] == inbox.messages;
    if id.Some? { assert inbox'.messages[|inbox.messages|..] == [Message(id.value, body, None)]; }
  }

  lemma {:induction false} CommittedExtends(seen: seq<Observation>, o: Observation)
    ensures Committed(seen + [o]) == Extended(Committed(seen), o)
  {
    assert (seen + [o])[..|seen|] == seen;
    if Usable(o) {
      CommittedNext(Usables(seen), o);
    } else {
      assert Usables(seen) + [] == Usables(seen);
    }
  }

  // ---------- the notices of all links ----------

  /** Usable observations of one link, with none of another link in between. */
  datatype Stretch = Stretch(link: nat, seen: seq<Observation>)

  function Seen(stretches: seq<Stretch>, link: nat, o: Observation): seq<Stretch> {
    if !Usable(o) then stretches
    else if stretches != [] && stretches[|stretches| - 1].link == link then
      stretches[..|stretches| - 1] + [Stretch(link, stretches[|stretches| - 1].seen + [o])]
    else stretches + [Stretch(link, [o])]
  }

  function StretchesOf(ops: seq<Op>): seq<Stretch> {
    if ops == [] then []
    else
      var earlier, op := StretchesOf(ops[..|ops| - 1]), ops[|ops| - 1];
      if op.DoCommit? then Seen(earlier, op.link, op.observation) else earlier
  }

  /** The checkpoint stands for what ought to be committed of the newest stretch. */
  predicate StandsForLast(checkpoint: Option<Checkpoint>, stretches: seq<Stretch>) {
    if stretches == [] then checkpoint.None?
    else
      var last := stretches[|stretches| - 1];
      Committed(last.seen) != [] && Stands(checkpoint, last.link, Committed(last.seen))
  }

  /** The notices all stretches call for, one stretch after the other. */
  function CalledAll(stretches: seq<Stretch>): seq<MessageId> {
    if stretches == [] then []
    else
      var last := stretches[|stretches| - 1];
      CalledAll(stretches[..|stretches| - 1]) + Called(last.link, Committed(last.seen))
  }

  lemma {:induction false} CalledAllLast(stretches: seq<Stretch>, last: Stretch)
    ensures CalledAll(stretches + [last]) == CalledAll(stretches) + Called(last.link, Committed(last.seen))
  {
    assert (stretches + [last])[..|stretches|] == stretches;
  }

  /** The first usable observation of a link that the checkpoint is not about: committed
      with ordinal one and mailed, whatever the checkpoint says of the other link. */
  lemma {:induction false} NewLinkStartsAgain(inbox: Inbox, link: nat, o: Observation, body: nat)
    requires Usable(o) && (inbox.checkpoint.Some? ==> inbox.checkpoint.value.link != link)
    ensures var (inbox', id) := Commit(inbox, link, o, body);
      && inbox'.checkpoint == Some(Checkpoint(link, o.state, o.head, 1))
      && id == (if o.state == InProgress then None else Some(PrEvent(link, 1, o.state, o.head)))
      && inbox'.messages == inbox.messages + (if id.Some? then [Message(id.value, body, None)] else [])
  {
    CommitMails(inbox, link, o, body);
  }

  lemma {:induction false} CommittedOne(o: Observation)
    requires Usable(o)
    ensures Committed([o]) == [o]
  {
    CommittedExtends([], o);
    assert [] + [o] == [o];
  }

  lemma {:induction false} CommitStarts(inbox: Inbox, stretches: seq<Stretch>, link: nat, o: Observation, body: nat)
    requires StandsForLast(inbox.checkpoint, stretches) && Usable(o)
    requires stretches != [] ==> stretches[|stretches| - 1].link != link
    ensures var inbox' := Commit(inbox, link, o, body).0; var after := stretches + [Stretch(link, [o])];
      StandsForLast(inbox'.checkpoint, after) && CalledAll(after) == CalledAll(stretches) + Mailed(inbox, inbox')
  {
    NewLinkStartsAgain(inbox, link, o, body);
    CommitMails(inbox, link, o, body);
    CommittedOne(o);
    CalledAllLast(stretches, Stretch(link, [o]));
    assert [o][..0] == [];
    assert Called(link, [o]) == [] + (if o.state == InProgress then [] else [PrEvent(link, 1, o.state, o.head)]);
  }

  lemma {:induction false} CommitGoesOn(inbox: Inbox, before: seq<Stretch>, last: Stretch, o: Observation, body: nat)
    requires StandsForLast(inbox.checkpoint, before + [last]) && Usable(o)
    ensures var inbox' := Commit(inbox, last.link, o, body).0; var after := before + [Stretch(last.link, last.seen + [o])];
      StandsForLast(inbox'.checkpoint, after) && CalledAll(after) == CalledAll(before + [last]) + Mailed(inbox, inbox')
  {
    CommittedExtends(last.seen, o);
    CommitExtends(inbox, last.link, Committed(last.seen), o, body);
    CalledAllLast(before, last);
    CalledAllLast(before, Stretch(last.link, last.seen + [o]));
  }

  lemma {:induction false} CommitFollows(inbox: Inbox, stretches: seq<Stretch>, link: nat, o: Observation, body: nat)
    requires StandsForLast(inbox.checkpoint, stretches)
    ensures var inbox' := Commit(inbox, link, o, body).0; var after := Seen(stretches, link, o);
      StandsForLast(inbox'.checkpoint, after) && CalledAll(after) == CalledAll(stretches) + Mailed(inbox, inbox')
  {
    if !Usable(o) {
      CommitMails(inbox, link, o, body);
      assert CalledAll(stretches) + [] == CalledAll(stretches);
    } else if stretches != [] && stretches[|stretches| - 1].link == link {
      var before, last := stretches[..|stretches| - 1], stretches[|stretches| - 1];
      assert stretches == before + [last];
      CommitGoesOn(inbox, before, last, o, body);
    } else {
      CommitStarts(inbox, stretches, link, o, body);
    }
  }

  /** For any observations of any links, with any mail and deliveries in between: the
      checkpoint stands for what ought to be committed of the newest stretch of one link,
      its ordinal counts that, and the notices in the inbox are exactly those the stretches
      call for, one for each committed observation that is not in progress. */
  lemma {:induction false} CheckpointsFollowObservations(ops: seq<Op>)
    ensures StandsForLast(Run(ops).inbox.checkpoint, StretchesOf(ops))
    ensures NoticesOf(ops) == CalledAll(StretchesOf(ops))
  {
    if ops != [] {
      var front, op := ops[..|ops| - 1], ops[|ops| - 1];
      CheckpointsFollowObservations(front);
      if op.DoCommit? {
        CommitFollows(Run(front).inbox, StretchesOf(front), op.link, op.observation, op.body);
      }
    }
  }

  /** With one link there is one stretch: all its observations. */
  lemma {:induction false} OneLinkFollows(ops: seq<Op>, link: nat)
    requires forall op <- ops :: op.DoCommit? ==> op.link == link
    ensures Stands(Run(ops).inbox.checkpoint, link, Committed(ObservationsOf(ops)))
    ensures NoticesOf(ops) == Called(link, Committed(ObservationsOf(ops)))
  {
    if ops != [] {
      var front, op := ops[..|ops| - 1], ops[|ops| - 1];
      OneLinkFollows(front, link);
      var seen := ObservationsOf(front);
      if op.DoCommit? {
        assert op in ops;
        CommittedExtends(seen, op.observation);
        CommitExtends(Run(front).inbox, link, Committed(seen), op.observation, op.body);
      } else {
        assert seen + [] == seen;
      }
    }
  }
}

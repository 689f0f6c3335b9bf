/** Reading the attention ledger page by page. */
module AttentionCursor {
  import opened Results
  import opened AttentionLedger

  datatype Cursor = Cursor(epoch: nat, sequence: nat)

  datatype Options = Options(limit: Option<int>, includeResolved: bool, actionableOnly: bool)

  datatype Page = Page(items: seq<Item>, cursor: Cursor, hasMore: bool, reset: bool)

  predicate Wanted(e: Item, after: nat, o: Options) {
    && e.sequence > after
    && (o.includeResolved || Open(e))
    && (!o.actionableOnly || (Open(e) && e.acknowledged.None?))
  }

  function Eligible(events: seq<Item>, after: nat, o: Options): seq<Item> {
    if events == [] then []
    else
      var last := events[|events| - 1];
      Eligible(events[..|events| - 1], after, o) + (if Wanted(last, after, o) then [last] else [])
  }

  function Limit(o: Options): nat {
    var asked := if o.limit.Some? then o.limit.value else 50;
    var atLeast := if asked < 1 then 1 else asked;
    if atLeast > 100 then 100 else atLeast
  }

  predicate Resets(l: Ledger, c: Option<Cursor>) {
    c.Some? && (c.value.epoch != l.epoch || c.value.sequence < l.prunedThrough || c.value.sequence > l.sequence)
  }

  function After(l: Ledger, c: Option<Cursor>): nat {
    if c.Some? && !Resets(l, c) then c.value.sequence else 0
  }

  function List(l: Ledger, c: Option<Cursor>, o: Options): Page {
    var eligible := Eligible(l.events, After(l, c), o);
    var items := if |eligible| > Limit(o) then eligible[..Limit(o)] else eligible;
    var hasMore := |eligible| > |items|;
    Page(items, Cursor(l.epoch, if hasMore then items[|items| - 1].sequence else l.sequence), hasMore, Resets(l, c))
  }

  // ---------- what a page holds ----------

  lemma {:induction false} EligibleMembers(events: seq<Item>, after: nat, o: Options)
    ensures forall e <- Eligible(events, after, o) :: e in events && Wanted(e, after, o)
    ensures forall e <- events :: Wanted(e, after, o) ==> e in Eligible(events, after, o)
  {
    if events != [] {
      EligibleMembers(events[..|events| - 1], after, o);
      assert events == events[..|events| - 1] + [events[|events| - 1]];
    }
  }

  lemma {:induction false} EligibleOrdered(events: seq<Item>, after: nat, o: Options)
    requires Ordered(events)
    ensures Ordered(Eligible(events, after, o))
  {
    if events != [] {
      var front, last := events[..|events| - 1], events[|events| - 1];
      EligibleOrdered(front, after, o);
      EligibleMembers(front, after, o);
      var list := Eligible(front, after, o);
      forall j | 0 <= j < |list| ensures list[j].sequence < last.sequence {
        assert list[j] in front;
      }
    }
  }

  /** A page of any kind of reading leaves out nothing up to its cursor, holds nothing
      that was not asked for, and moves on as long as there is something to read. */
  lemma PageComplete(l: Ledger, c: Option<Cursor>, o: Options)
    requires Inv(l)
    ensures var p := List(l, c, o); var after := After(l, c);
      && Ordered(p.items) && |p.items| <= Limit(o)
      && (forall e <- p.items :: e in l.events && Wanted(e, after, o) && e.sequence <= p.cursor.sequence)
      && (forall e <- l.events :: Wanted(e, after, o) && e.sequence <= p.cursor.sequence ==> e in p.items)
      && (p.hasMore ==> after < p.cursor.sequence <= l.sequence)
      && (!p.hasMore ==> p.cursor.sequence == l.sequence)
  {
    var p := List(l, c, o);
    var after := After(l, c);
    var eligible := Eligible(l.events, after, o);
    EligibleMembers(l.events, after, o);
    EligibleOrdered(l.events, after, o);
    forall e <- p.items ensures e in eligible && e.sequence <= p.cursor.sequence {
      var i :| 0 <= i < |p.items| && p.items[i] == e;
      assert eligible[i] == e && NumberedItem(e, l.sequence);
    }
    forall e <- l.events | Wanted(e, after, o) && e.sequence <= p.cursor.sequence ensures e in p.items {
      var i :| 0 <= i < |eligible| && eligible[i] == e;
      assert p.hasMore ==> eligible[|p.items| - 1] == p.items[|p.items| - 1];
      assert i < |p.items|;
    }
    if p.hasMore { assert p.items[|p.items| - 1] in p.items; }
  }

  function Reading(limit: Option<int>): Options {
    Options(limit, true, false)
  }

  lemma EligibleHas(l: Ledger, after: nat, limit: Option<int>, n: nat)
    requires Inv(l) && l.prunedThrough <= after < n <= l.sequence
    ensures HasSequence(Eligible(l.events, after, Reading(limit)), n)
  {
    var eligible := Eligible(l.events, after, Reading(limit));
    EligibleMembers(l.events, after, Reading(limit));
    assert HasSequence(l.events, n);
    var i :| 0 <= i < |l.events| && l.events[i].sequence == n;
    assert l.events[i] in l.events;
    var j :| 0 <= j < |eligible| && eligible[j] == l.events[i];
  }

  lemma EligibleNumbered(l: Ledger, after: nat, limit: Option<int>, i: nat)
    requires Inv(l) && i < |Eligible(l.events, after, Reading(limit))|
    ensures var e := Eligible(l.events, after, Reading(limit))[i]; after < e.sequence <= l.sequence && e.id == e.sequence
  {
    EligibleMembers(l.events, after, Reading(limit));
    var eligible := Eligible(l.events, after, Reading(limit));
    assert eligible[i] in eligible && NumberedItem(eligible[i], l.sequence);
  }

  lemma EligibleUnbroken(l: Ledger, after: nat, limit: Option<int>)
    requires Inv(l) && l.prunedThrough <= after <= l.sequence
    ensures var eligible := Eligible(l.events, after, Reading(limit));
      && |eligible| == l.sequence - after
      && forall i :: 0 <= i < |eligible| ==> eligible[i].sequence == eligible[i].id == after + 1 + i
  {
    var eligible := Eligible(l.events, after, Reading(limit));
    EligibleOrdered(l.events, after, Reading(limit));
    forall n: nat | after < n <= l.sequence ensures HasSequence(eligible, n) {
      EligibleHas(l, after, limit, n);
    }
    forall i | 0 <= i < |eligible|
      ensures after < eligible[i].sequence <= l.sequence && eligible[i].id == eligible[i].sequence
    {
      EligibleNumbered(l, after, limit, i);
    }
    Unbroken(eligible, after, l.sequence);
  }

  /** Read with resolved items included, a page that is no reset is the unbroken run
      of events between the two cursors. */
  lemma PageContiguous(l: Ledger, c: Cursor, limit: Option<int>)
    requires Inv(l) && !Resets(l, Some(c))
    ensures var p := List(l, Some(c), Reading(limit));
      && c.sequence <= p.cursor.sequence <= l.sequence
      && |p.items| == p.cursor.sequence - c.sequence
      && forall i :: 0 <= i < |p.items| ==> p.items[i].sequence == p.items[i].id == c.sequence + 1 + i
  {
    EligibleUnbroken(l, c.sequence, limit);
  }

  lemma {:induction false} Unbroken(events: seq<Item>, after: nat, last: nat)
    requires Ordered(events) && after <= last
    requires forall i :: 0 <= i < |events| ==> after < events[i].sequence <= last
    requires forall n: nat :: after < n <= last ==> HasSequence(events, n)
    ensures |events| == last - after
    ensures forall i :: 0 <= i < |events| ==> events[i].sequence == after + 1 + i
  {
    assert |events| > 0 ==> after < events[0].sequence <= last;
    if after != last {
      assert HasSequence(events, last);
      var i :| 0 <= i < |events| && events[i].sequence == last;
      assert i == |events| - 1;
      var front := events[..|events| - 1];
      forall n: nat | after < n <= last - 1 ensures HasSequence(front, n) {
        assert HasSequence(events, n);
        var j :| 0 <= j < |events| && events[j].sequence == n;
        assert front[j].sequence == n;
      }
      Unbroken(front, after, last - 1);
    }
  }

  // ---------- following the ledger ----------

  datatype Act = Do(op: Op) | Poll(limit: Option<int>)

  datatype Follower = Follower(cursor: Cursor, visited: seq<Id>, wasReset: bool)

  function Ids(items: seq<Item>): seq<Id> {
    seq(|items|, i requires 0 <= i < |items| => items[i].id)
  }

  function Advance(l: Ledger, f: Follower, act: Act, retention: nat): (Ledger, Follower) {
    match act
    case Do(op) => (Apply(l, op, retention), f)
    case Poll(limit) =>
      var p := List(l, Some(f.cursor), Reading(limit));
      (l, Follower(p.cursor, f.visited + Ids(p.items), f.wasReset || p.reset))
  }

  function Play(l: Ledger, f: Follower, acts: seq<Act>, retention: nat): (Ledger, Follower) {
    if acts == [] then (l, f)
    else
      var (l', f') := Play(l, f, acts[..|acts| - 1], retention);
      Advance(l', f', acts[|acts| - 1], retention)
  }

  /** The ids from `start` (not included) to `end`, one after the other. */
  predicate Stretch(ids: seq<Id>, start: nat, end: nat) {
    && start <= end && |ids| == end - start
    && forall i :: 0 <= i < |ids| ==> ids[i] == start + 1 + i
  }

  predicate Attached(l: Ledger, c: Cursor) {
    c.epoch <= l.epoch && (c.epoch == l.epoch ==> c.sequence <= l.sequence)
  }

  /** A follower of the cursors, with any operations, prunings and even the loss of the
      file in between, has visited every event recorded after its start exactly once
      and in order, unless a page told it to start over. */
  lemma {:induction false} FollowerMissesNothing(l: Ledger, start: Cursor, acts: seq<Act>, retention: nat)
    requires Inv(l) && Attached(l, start)
    requires forall a <- acts :: a.Do? ==> Proper(a.op)
    ensures var (l', f) := Play(l, Follower(start, [], false), acts, retention);
      && Inv(l') && Attached(l', f.cursor)
      && (!f.wasReset ==> f.cursor.epoch == start.epoch && Stretch(f.visited, start.sequence, f.cursor.sequence))
  {
    if acts != [] {
      var before := acts[..|acts| - 1];
      FollowerMissesNothing(l, start, before, retention);
      var (l1, f1) := Play(l, Follower(start, [], false), before, retention);
      match acts[|acts| - 1]
      case Do(op) =>
        if op != LoseFile { assert acts[|acts| - 1] in acts; ApplyGood(l1, op, retention); }
      case Poll(limit) =>
        PageComplete(l1, Some(f1.cursor), Reading(limit));
        if !Resets(l1, Some(f1.cursor)) { PageContiguous(l1, f1.cursor, limit); }
    }
  }

  /** A page that announces nothing more brings the follower to the end, and no event
      beyond a cursor that is not reset was ever pruned. */
  lemma NothingPrunedAhead(ops: seq<Op>, retention: nat, c: Cursor, n: nat)
    requires forall op <- ops :: Proper(op)
    requires !Resets(Run(EMPTY, ops, retention), Some(c))
    requires c.sequence < n <= Run(EMPTY, ops, retention).sequence
    ensures exists e <- Run(EMPTY, ops, retention).events :: e.sequence == n
  {
    RunInv(EMPTY, ops, retention);
    var l := Run(EMPTY, ops, retention);
    assert HasSequence(l.events, n);
    var i :| 0 <= i < |l.events| && l.events[i].sequence == n;
    assert l.events[i] in l.events;
  }

  /** A page in short: it starts over exactly if its cursor is of another ledger, before what
      was pruned or beyond the end; it has what is behind its cursor, open or all of it as
      asked, and it is full exactly if something is left over. */
  lemma {:induction false} PageInShort(l: Ledger, c: Option<Cursor>, o: Options)
    requires Inv(l)
    ensures var p := List(l, c, o);
      && (p.reset <==> c.Some? && !(c.value.epoch == l.epoch && l.prunedThrough <= c.value.sequence <= l.sequence))
      && p.cursor.epoch == l.epoch
      && var from := if c.None? || p.reset then 0 else c.value.sequence;
      && (forall e <- l.events :: e in p.items <==>
            && from < e.sequence <= p.cursor.sequence
            && (o.includeResolved || e.closing.None?)
            && (o.actionableOnly ==> e.closing.None? && e.acknowledged.None?))
      && (forall e <- p.items :: e in l.events)
      && var most := match o.limit case None => 50 case Some(n) => if n < 1 then 1 else if n > 100 then 100 else n;
         |p.items| <= most && (p.hasMore ==> |p.items| == most)
  {
    PageComplete(l, c, o);
  }
}

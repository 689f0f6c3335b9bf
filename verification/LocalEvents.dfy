/** The buffer of recent publications that local followers read with a cursor.

    It keeps the newest publications within two limits and hands them out in pages; a
    cursor it cannot continue from, or a publication too large for any page, makes the
    page say that the reader has to start over. */
module LocalEvents {

  const MAX_ITEMS: nat := 1000
  const MAX_BYTES: nat := 2_000_000
  const PAGE_BYTES: nat := 250_000

  /** A publication and the byte length of its JSON form. */
  datatype Item = Item(channel: string, data: string, cursor: nat, size: nat)

  datatype Page = Page(events: seq<Item>, cursor: nat, reset: bool)

  function Bytes(items: seq<Item>): nat {
    if items == [] then 0 else items[0].size + Bytes(items[1..])
  }

  lemma {:induction false} BytesAppend(items: seq<Item>, item: Item)
    ensures Bytes(items + [item]) == Bytes(items) + item.size
  {
    if items == [] {
      assert items + [item] == [item];
    } else {
      BytesAppend(items[1..], item);
      assert (items + [item])[1..] == items[1..] + [item];
    }
  }

  /** The items a page may carry: one larger than a page never travels. */
  function Sendable(items: seq<Item>): seq<Item> {
    if items == [] then []
    else
      var last := items[|items| - 1];
      Sendable(items[..|items| - 1]) + (if last.size <= PAGE_BYTES then [last] else [])
  }

  predicate TooLarge(items: seq<Item>) {
    exists k :: 0 <= k < |items| && items[k].size > PAGE_BYTES
  }

  lemma {:induction false} SendableIsAll(items: seq<Item>)
    requires !TooLarge(items)
    ensures Sendable(items) == items
  {
    if items != [] {
      var front := items[..|items| - 1];
      assert forall k :: 0 <= k < |front| ==> front[k] == items[k];
      SendableIsAll(front);
    }
  }

  lemma SendableAppend(items: seq<Item>, item: Item)
    ensures Sendable(items + [item]) == Sendable(items) + (if item.size <= PAGE_BYTES then [item] else [])
    ensures TooLarge(items + [item]) <==> TooLarge(items) || item.size > PAGE_BYTES
  {
    var all := items + [item];
    assert all[..|items|] == items;
    assert all[|items|] == item && forall k :: 0 <= k < |items| ==> all[k] == items[k];
  }

  /** Publication k carries cursor k + 1. */
  ghost predicate Numbered(history: seq<Item>) {
    forall k :: 0 <= k < |history| ==> history[k].cursor == k + 1
  }

  /** How many items one page deals with: those it carries and those it passes over. */
  function Fill(list: seq<Item>, used: nat): (k: nat)
    ensures k <= |list|
  {
    if list == [] then 0
    else if list[0].size > PAGE_BYTES then 1 + Fill(list[1..], used)
    else if used + list[0].size > PAGE_BYTES then 0
    else 1 + Fill(list[1..], used + list[0].size)
  }

  lemma FillNext(list: seq<Item>, k: nat, used: nat)
    requires k < |list|
    ensures Fill(list[k..], used)
         == if list[k].size > PAGE_BYTES then 1 + Fill(list[k + 1..], used)
            else if used + list[k].size > PAGE_BYTES then 0
            else 1 + Fill(list[k + 1..], used + list[k].size)
  {
    assert list[k..][1..] == list[k + 1..];
  }

  lemma SendableNext(list: seq<Item>, k: nat)
    requires k < |list|
    ensures Sendable(list[..k + 1]) == Sendable(list[..k]) + (if list[k].size <= PAGE_BYTES then [list[k]] else [])
    ensures TooLarge(list[..k + 1]) <==> TooLarge(list[..k]) || list[k].size > PAGE_BYTES
  {
    SendableAppend(list[..k], list[k]);
    assert list[..k + 1] == list[..k] + [list[k]];
  }

  /** The bytes of those of the first m items that a page may carry. */
  function Carried(list: seq<Item>, m: nat): nat
    requires m <= |list|
  {
    if m == 0 then 0 else Carried(list, m - 1) + (if list[m - 1].size <= PAGE_BYTES then list[m - 1].size else 0)
  }

  lemma {:induction false} CarriedIs(list: seq<Item>, m: nat)
    requires m <= |list|
    ensures Carried(list, m) == Bytes(Sendable(list[..m]))
  {
    if m > 0 {
      CarriedIs(list, m - 1);
      SendableNext(list, m - 1);
      if list[m - 1].size <= PAGE_BYTES {
        BytesAppend(Sendable(list[..m - 1]), list[m - 1]);
      } else {
        assert Sendable(list[..m - 1]) + [] == Sendable(list[..m - 1]);
      }
    }
  }

  lemma {:induction false} CarriedGrows(list: seq<Item>, m: nat, k: nat)
    requires m <= k <= |list|
    ensures Carried(list, m) <= Carried(list, k)
    decreases k - m
  {
    if m < k { CarriedGrows(list, m, k - 1); }
  }

  /** Where the page loop stops, seen from any item before. */
  lemma {:induction false} FillIs(list: seq<Item>, m: nat, k: nat)
    requires m <= k <= |list| && Carried(list, k) <= PAGE_BYTES
    requires k < |list| ==> list[k].size <= PAGE_BYTES < Carried(list, k) + list[k].size
    ensures Fill(list[m..], Carried(list, m)) == k - m
    decreases k - m
  {
    if m < |list| { FillNext(list, m, Carried(list, m)); }
    if m < k {
      CarriedGrows(list, m + 1, k);
      FillIs(list, m + 1, k);
    }
  }

  /** The page loop: as many items as fit; one that could never fit is passed over,
      which asks for a reset. */
  method FillPage(list: seq<Item>, from: nat, ghost base: nat) returns (items: seq<Item>, cursor: nat, skipped: bool)
    requires forall k :: 0 <= k < |list| ==> list[k].cursor == base + k + 1
    ensures |list| == 0 ==> items == [] && cursor == from && !skipped
    ensures |list| > 0 ==> base < cursor == base + Fill(list, 0)
    ensures |list| > 0 ==> items == Sendable(list[..cursor - base]) && (skipped <==> TooLarge(list[..cursor - base]))
    ensures Bytes(items) <= PAGE_BYTES
    ensures |list| > 0 && cursor < base + |list| ==> Bytes(items) + list[cursor - base].size > PAGE_BYTES
  {
    items, cursor, skipped := [], from, false;
    var used := 0;
    for k := 0 to |list|
      invariant k > 0 ==> cursor == base + k
      invariant k == 0 ==> cursor == from
      invariant items == Sendable(list[..k]) && used == Bytes(items) <= PAGE_BYTES
      invariant skipped <==> TooLarge(list[..k])
    {
      var event := list[k];
      SendableNext(list, k);
      if event.size > PAGE_BYTES {
        cursor, skipped := event.cursor, true;
      } else {
        if used + event.size > PAGE_BYTES {
          assert k > 0;
          break;
        }
        BytesAppend(items, event);
        items := items + [event];
        used := used + event.size;
        cursor := event.cursor;
      }
    }
    assert list[..|list|] == list;
    if |list| > 0 { FilledAt(list, cursor - base); }
  }

  lemma FilledAt(list: seq<Item>, k: nat)
    requires k <= |list| && Bytes(Sendable(list[..k])) <= PAGE_BYTES
    requires k < |list| ==> list[k].size <= PAGE_BYTES < Bytes(Sendable(list[..k])) + list[k].size
    ensures Fill(list, 0) == k
  {
    CarriedIs(list, k);
    FillIs(list, 0, k);
    assert list[0..] == list;
  }

  /** The bytes of the publications from index a on. */
  function BytesFrom(history: seq<Item>, a: nat): nat
    decreases |history| - a
  {
    if a >= |history| then 0 else history[a].size + BytesFrom(history, a + 1)
  }

  lemma {:induction false} BytesFromAppend(history: seq<Item>, a: nat, item: Item)
    requires a <= |history|
    ensures BytesFrom(history + [item], a) == BytesFrom(history, a) + item.size
    decreases |history| - a
  {
    if a < |history| { BytesFromAppend(history, a + 1, item); }
  }

  /** Dropping more than all but the newest n would not have been needed. */
  predicate Minimal(history: seq<Item>, n: nat)
    requires n <= |history|
  {
    n < |history| ==> n + 1 > MAX_ITEMS || BytesFrom(history, |history| - n - 1) > MAX_BYTES
  }

  lemma DropFirst(history: seq<Item>, tail: seq<Item>)
    requires 0 < |tail| <= |history| && tail == history[|history| - |tail|..]
    ensures tail[1..] == history[|history| - |tail| + 1..] && tail[0] == history[|history| - |tail|]
  {
  }

  lemma TailAppend(history: seq<Item>, tail: seq<Item>, item: Item)
    requires |tail| <= |history| && tail == history[|history| - |tail|..]
    ensures tail + [item] == (history + [item])[|history| - |tail|..]
  {
  }

  /** The newest n publications are within both limits. */
  predicate Holds(history: seq<Item>, n: nat)
    requires n <= |history|
  {
    n <= MAX_ITEMS && BytesFrom(history, |history| - n) <= MAX_BYTES
  }

  function KeptFrom(history: seq<Item>, n: nat): (kept: nat)
    requires n <= |history|
    ensures n <= kept <= |history|
    decreases |history| - n
  {
    if n < |history| && Holds(history, n + 1) then KeptFrom(history, n + 1) else n
  }

  /** What is left of all publications: the longest end within both limits. */
  function Kept(history: seq<Item>): (kept: nat)
    ensures kept <= |history|
  {
    KeptFrom(history, 0)
  }

  lemma HoldsLess(history: seq<Item>, n: nat)
    requires n < |history| && Holds(history, n + 1)
    ensures Holds(history, n)
  {
  }

  lemma {:induction false} HoldsAnyLess(history: seq<Item>, m: nat, n: nat)
    requires m <= n <= |history| && Holds(history, n)
    ensures Holds(history, m)
    decreases n - m
  {
    if m < n {
      HoldsLess(history, n - 1);
      HoldsAnyLess(history, m, n - 1);
    }
  }

  lemma {:induction false} KeptIsFrom(history: seq<Item>, m: nat, n: nat)
    requires m <= n <= |history| && Holds(history, n) && Minimal(history, n)
    ensures KeptFrom(history, m) == n
    decreases n - m
  {
    if m < n {
      HoldsAnyLess(history, m + 1, n);
      KeptIsFrom(history, m + 1, n);
    }
  }

  /** Within both limits, and no more dropped than needed: that is what is kept. */
  lemma KeptIs(history: seq<Item>, n: nat)
    requires n <= |history| && Holds(history, n) && Minimal(history, n)
    ensures Kept(history) == n
  {
    KeptIsFrom(history, 0, n);
  }

  /** One more publication makes no older one fit that did not before. */
  lemma MinimalGrows(history: seq<Item>, item: Item, n: nat)
    requires n <= |history| && Minimal(history, n)
    ensures Minimal(history + [item], n + 1)
  {
    if n < |history| { BytesFromAppend(history, |history| - n - 1, item); }
  }

  /** The buffer cannot continue from this cursor: beyond the end, or before what is left. */
  predicate Lost(history: seq<Item>, after: nat) {
    after > |history| || after < |history| - Kept(history)
  }

  function From(history: seq<Item>, after: nat): (start: nat)
    ensures start <= |history|
  {
    if Lost(history, after) then |history| - Kept(history) else after
  }

  /** The page a reader at `after` gets. */
  function PageAt(history: seq<Item>, after: nat): Page {
    var start := From(history, after);
    var list := history[start..];
    var n := Fill(list, 0);
    Page(Sendable(list[..n]), start + n, Lost(history, after) || TooLarge(list[..n]))
  }

  lemma Stretch(history: seq<Item>, start: nat, n: nat)
    requires start + n <= |history|
    ensures history[start..][..n] == history[start..start + n]
  {
  }

  lemma ListedAre(history: seq<Item>, start: nat)
    requires Numbered(history) && start <= |history|
    ensures forall k :: 0 <= k < |history[start..]| ==> history[start..][k].cursor == start + k + 1
  {
  }

  /** The page made of the publications in `list`. */
  method PageOf(list: seq<Item>, after: nat, reset: bool, sequence: nat, ghost history: seq<Item>) returns (page: Page)
    requires Numbered(history) && sequence == |history|
    requires list == history[From(history, after)..] && (reset <==> Lost(history, after))
    ensures page == PageAt(history, after)
    ensures From(history, after) <= page.cursor <= |history|
    ensures page.events == Sendable(history[From(history, after)..page.cursor])
    ensures page.reset <==> Lost(history, after) || TooLarge(history[From(history, after)..page.cursor])
    ensures Bytes(page.events) <= PAGE_BYTES
    ensures From(history, after) < |history| ==> From(history, after) < page.cursor
    ensures page.cursor < |history| ==> Bytes(page.events) + history[page.cursor].size > PAGE_BYTES
  {
    ghost var start := From(history, after);
    ListedAre(history, start);
    var items, cursor, skipped := FillPage(list, if reset then 0 else after, start);
    Stretch(history, start, Fill(list, 0));
    page := Page(items, if |list| > 0 then cursor else sequence, reset || skipped);
  }

  class EventBuffer {
    var sequence: nat
    var events: seq<Item>
    var bytes: nat
    /** Everything ever published. */
    ghost var history: seq<Item>

    /** The buffer is the newest stretch of everything published. */
    ghost predicate Suffix()
      reads this
    {
      && Numbered(history) && sequence == |history|
      && |events| <= |history| && events == history[|history| - |events|..]
      && bytes == BytesFrom(history, |history| - |events|)
    }

    ghost predicate Valid()
      reads this
    {
      Suffix() && |events| <= 1000 && bytes <= 2_000_000 && Minimal(history, |events|)
    }

    constructor ()
      ensures Valid() && history == []
    {
      sequence, events, bytes, history := 0, [], 0, [];
    }

    method Push(item: Item)
      requires Suffix() && item.cursor == sequence + 1
      modifies this
      ensures Suffix() && history == old(history) + [item] && |events| == |old(events)| + 1
    {
      TailAppend(history, events, item);
      BytesFromAppend(history, |history| - |events|, item);
      sequence := sequence + 1;
      events := events + [item];
      bytes := bytes + item.size;
      history := history + [item];
    }

    method Shift()
      requires Suffix() && events != []
      modifies this`events, this`bytes
      ensures Suffix() && |events| == |old(events)| - 1
      ensures old(bytes) == BytesFrom(history, |history| - |events| - 1)
    {
      DropFirst(history, events);
      var removed := events[0];
      events := events[1..];
      bytes := bytes - removed.size;
    }

    /** The eviction loop: oldest first, and no more than the two bounds require. */
    method Evict()
      requires Suffix() && Minimal(history, |events|)
      modifies this`events, this`bytes
      ensures Valid()
    {
      while |events| > MAX_ITEMS || bytes > MAX_BYTES
        invariant Suffix() && Minimal(history, |events|)
        decreases |events|
      {
        if |events| == 0 { break; }
        Shift();
      }
    }

    /** recordPublication. */
    method Record(channel: string, data: string, size: nat)
      modifies this
      requires Valid()
      ensures Valid()
      ensures history == old(history) + [Item(channel, data, old(sequence) + 1, size)]
      // One more of the older ones would not have fitted.
      ensures |events| < |history| ==> |events| == 1000 || bytes + history[|history| - |events| - 1].size > 2_000_000
    {
      var item := Item(channel, data, sequence + 1, size);
      assert Minimal(history + [item], |events| + 1) by { MinimalGrows(history, item, |events|); }
      Push(item);
      Evict();
    }

    /** A cursor the buffer cannot continue from: beyond the end, or before what is left. */
    predicate Unreachable(after: nat)
      reads this
    {
      after > sequence || after < (if |events| > 0 then events[0].cursor else sequence + 1) - 1
    }

    /** Where a page begins: at the cursor, or at the oldest publication left. */
    ghost function Start(after: nat): (start: nat)
      requires Valid()
      reads this
      ensures start <= sequence
      ensures Unreachable(after) <==> after > sequence || after < sequence - |events|
      ensures start == From(history, after)
    {
      assert |events| > 0 ==> events[0] == history[|history| - |events|];
      KeptIs(history, |events|);
      if Unreachable(after) then sequence - |events| else after
    }

    /** Everything on a reset, otherwise the items with a later cursor. */
    method Later(after: nat) returns (list: seq<Item>)
      requires Valid()
      ensures list == history[From(history, after)..]
    {
      assert From(history, after) == Start(after);
      list := events[if Unreachable(after) then 0 else after - (sequence - |events|)..];
    }

    /** The part of /api/browser/events after the wait. */
    method Read(after: nat) returns (page: Page)
      requires Valid()
      ensures page == PageAt(history, after)
      ensures Start(after) <= page.cursor <= sequence
      ensures page.events == Sendable(history[Start(after)..page.cursor])
      ensures page.reset <==> Unreachable(after) || TooLarge(history[Start(after)..page.cursor])
      ensures Bytes(page.events) <= 250_000
      ensures Start(after) < sequence ==> Start(after) < page.cursor
      ensures page.cursor < sequence ==> Bytes(page.events) + history[page.cursor].size > 250_000
    {
      assert Start(after) == From(history, after) && (Unreachable(after) <==> Lost(history, after));
      var list := Later(after);
      page := PageOf(list, after, Unreachable(after), sequence, history);
    }
  }

  // ---------- a follower ----------

  datatype Event = Publish(channel: string, data: string, size: nat) | Poll

  /** What one event makes of everything published. */
  function After(all: seq<Item>, e: Event): seq<Item> {
    match e
    case Publish(channel, data, size) => all + [Item(channel, data, |all| + 1, size)]
    case Poll => all
  }

  /** What a script publishes, numbered. */
  function Published(script: seq<Event>): seq<Item> {
    if script == [] then [] else After(Published(script[..|script| - 1]), script[|script| - 1])
  }

  lemma Joined(history: seq<Item>, a: nat, b: nat, c: nat)
    requires a <= b <= c <= |history|
    ensures history[a..b] + history[b..c] == history[a..c]
    ensures TooLarge(history[a..c]) <==> TooLarge(history[a..b]) || TooLarge(history[b..c])
  {
    var x, y := history[a..b], history[b..c];
    assert x + y == history[a..c];
    assert forall k :: 0 <= k < |x| ==> (x + y)[k] == x[k];
    assert forall k :: 0 <= k < |y| ==> (x + y)[|x| + k] == y[k];
  }

  /** One poll of a follower. */
  method PollOnce(buffer: EventBuffer, cursor0: nat, got0: seq<Item>, ghost start: nat)
    returns (cursor: nat, got: seq<Item>, wasReset: bool)
    requires buffer.Valid()
    requires || (cursor0 == start && got0 == [])
             || (start <= cursor0 <= buffer.sequence && got0 == buffer.history[start..cursor0])
    ensures !wasReset ==> start <= cursor <= buffer.sequence && got == buffer.history[start..cursor]
    ensures !wasReset && cursor0 < buffer.sequence ==> cursor0 < cursor
    ensures buffer.Start(cursor0) <= cursor <= buffer.sequence
    ensures wasReset <==> buffer.Unreachable(cursor0) || TooLarge(buffer.history[buffer.Start(cursor0)..cursor])
    ensures buffer.Start(cursor0) < buffer.sequence ==> buffer.Start(cursor0) < cursor
  {
    var page := buffer.Read(cursor0);
    cursor, got, wasReset := page.cursor, got0 + page.events, page.reset;
    if !wasReset {
      SendableIsAll(buffer.history[cursor0..cursor]);
      Joined(buffer.history, start, cursor0, cursor);
    }
  }

  datatype Follower = Follower(cursor: nat, got: seq<Item>, wasReset: bool)

  /** A follower keeps what its pages bring, until one asks for a reset. */
  function Polled(history: seq<Item>, f: Follower): Follower {
    if f.wasReset then f
    else
      var page := PageAt(history, f.cursor);
      Follower(page.cursor, f.got + page.events, page.reset)
  }

  function Play(script: seq<Event>, start: nat): Follower {
    if script == [] then Follower(start, [], false)
    else
      var f := Play(script[..|script| - 1], start);
      if script[|script| - 1].Poll? then Polled(Published(script), f) else f
  }

  lemma PageOfAll(history: seq<Item>, after: nat)
    ensures var page := PageAt(history, after);
      && From(history, after) <= page.cursor <= |history|
      && (!page.reset ==> after <= |history| && page.events == history[after..page.cursor])
      && (From(history, after) < |history| ==> From(history, after) < page.cursor)
  {
    var page, start := PageAt(history, after), From(history, after);
    Stretch(history, start, page.cursor - start);
    if !page.reset { SendableIsAll(history[after..page.cursor]); }
  }

  lemma PublishedNext(script: seq<Event>, e: Event)
    ensures Published(script + [e]) == After(Published(script), e)
  {
    assert (script + [e])[..|script|] == script;
  }

  lemma {:induction false} PublishedGrows(script: seq<Event>, e: Event)
    ensures Published(script) <= Published(script + [e])
    ensures e == Poll ==> Published(script + [e]) == Published(script)
  {
    assert (script + [e])[..|script|] == script;
  }

  /** What a follower has that was never told to start over. */
  predicate Has(all: seq<Item>, start: nat, f: Follower) {
    f.wasReset || (f.cursor == start && f.got == [])
    || (start <= f.cursor <= |all| && f.got == all[start..f.cursor])
  }

  lemma PollHas(all: seq<Item>, start: nat, f: Follower)
    requires Has(all, start, f)
    ensures Has(all, start, Polled(all, f))
    ensures !f.wasReset && f.cursor < |all| ==> Polled(all, f).wasReset || Polled(all, f).cursor > f.cursor
  {
    PageOfAll(all, f.cursor);
    var page := PageAt(all, f.cursor);
    if !f.wasReset && !page.reset && start <= f.cursor { Joined(all, start, f.cursor, page.cursor); }
  }

  lemma PublishHas(all: seq<Item>, more: seq<Item>, start: nat, f: Follower)
    requires Has(all, start, f) && all <= more
    ensures Has(more, start, f)
  {
    if start <= f.cursor <= |all| { assert all[start..f.cursor] == more[start..f.cursor]; }
  }

  lemma PlayNext(script: seq<Event>, e: Event, start: nat)
    ensures Play(script + [e], start) == if e.Poll? then Polled(Published(script), Play(script, start)) else Play(script, start)
  {
    assert (script + [e])[..|script|] == script;
    if e == Poll { PublishedGrows(script, e); }
  }

  /** A follower that starts at any cursor, while others publish: until a page asks for a
      reset, what it has is exactly what was published from its start to its cursor ... */
  lemma {:induction false} FollowerMissesNothing(script: seq<Event>, start: nat)
    ensures Has(Published(script), start, Play(script, start))
  {
    if script != [] {
      var front, e := script[..|script| - 1], script[|script| - 1];
      FollowerMissesNothing(front, start);
      assert front + [e] == script;
      PublishedGrows(front, e);
      PlayNext(front, e, start);
      if e == Poll { PollHas(Published(front), start, Play(front, start)); }
      else { PublishHas(Published(front), Published(script), start, Play(front, start)); }
    }
  }

  /** A reset has its reason: some poll found that what comes next is gone or was never
      published, or that a publication larger than a page would be passed over. */
  lemma {:induction false} ResetHasReason(script: seq<Event>, start: nat) returns (k: nat)
    requires Play(script, start).wasReset
    ensures k < |script| && script[k] == Poll && !Play(script[..k], start).wasReset
    ensures var all, cursor := Published(script[..k]), Play(script[..k], start).cursor;
      || cursor > |all|
      || cursor < |all| - Kept(all)
      || exists i :: cursor <= i < |all| && all[i].size > 250_000
  {
    assert script != [];
    var front, e := script[..|script| - 1], script[|script| - 1];
    var f, all := Play(front, start), Published(front);
    assert front + [e] == script;
    PlayNext(front, e, start);
    if f.wasReset {
      k := ResetHasReason(front, start);
      assert front[..k] == script[..k];
    } else {
      k := |front|;
      if !Lost(all, f.cursor) { TooLargeIsThere(all, f.cursor); }
    }
  }

  lemma {:induction false} TooLargeIsThere(all: seq<Item>, cursor: nat)
    requires PageAt(all, cursor).reset && !Lost(all, cursor)
    ensures exists i :: cursor <= i < |all| && all[i].size > PAGE_BYTES
  {
    var list := all[cursor..];
    var n := Fill(list, 0);
    var i :| 0 <= i < n && list[..n][i].size > PAGE_BYTES;
    assert all[cursor + i].size > PAGE_BYTES;
  }

  /** ... and each poll with something left to read takes it further. */
  lemma PollsMoveOn(script: seq<Event>, start: nat)
    requires !Play(script, start).wasReset && Play(script, start).cursor < |Published(script)|
    ensures var next := Play(script + [Poll], start); next.wasReset || next.cursor > Play(script, start).cursor
  {
    FollowerMissesNothing(script, start);
    PlayNext(script, Poll, start);
    PollHas(Published(script), start, Play(script, start));
  }

  lemma ScriptNext(script: seq<Event>, k: nat, start: nat)
    requires k < |script|
    ensures Play(script[..k + 1], start)
         == if script[k].Poll? then Polled(Published(script[..k]), Play(script[..k], start)) else Play(script[..k], start)
    ensures Published(script[..k + 1]) == After(Published(script[..k]), script[k])
  {
    assert script[..k + 1] == script[..k] + [script[k]];
    PlayNext(script[..k], script[k], start);
    PublishedNext(script[..k], script[k]);
  }

  method Perform(buffer: EventBuffer, e: Event, f: Follower) returns (f': Follower)
    requires buffer.Valid()
    modifies buffer
    ensures buffer.Valid() && buffer.history == After(old(buffer.history), e)
    ensures f' == if e.Poll? then Polled(buffer.history, f) else f
  {
    f' := f;
    match e {
      case Publish(channel, data, size) => buffer.Record(channel, data, size);
      case Poll =>
        if !f.wasReset {
          var page := buffer.Read(f.cursor);
          f' := Follower(page.cursor, f.got + page.events, page.reset);
        }
    }
  }

  /** The follower on the buffer itself. */
  method Follow(script: seq<Event>, start: nat) returns (f: Follower)
    ensures f == Play(script, start)
  {
    var buffer := new EventBuffer();
    f := Follower(start, [], false);
    for k := 0 to |script|
      invariant fresh(buffer) && buffer.Valid()
      invariant buffer.history == Published(script[..k]) && f == Play(script[..k], start)
    {
      ScriptNext(script, k, start);
      f := Perform(buffer, script[k], f);
    }
    assert script[..|script|] == script;
  }

  lemma ToTheEnd(history: seq<Item>, a: nat)
    requires a <= |history|
    ensures history[a..] == history[a..|history|]
  {
  }

  /** Polling without new publications reaches the end, from any cursor. */
  method CatchUp(buffer: EventBuffer, after: nat) returns (got: seq<Item>, wasReset: bool)
    requires buffer.Valid()
    ensures !wasReset ==> after <= buffer.sequence && got == buffer.history[after..]
    ensures wasReset <==> buffer.Unreachable(after) || TooLarge(buffer.history[buffer.Start(after)..])
  {
    var cursor;
    ghost var from := buffer.Start(after);
    cursor, got, wasReset := PollOnce(buffer, after, [], after);
    while cursor < buffer.sequence
      invariant from <= cursor <= buffer.sequence && buffer.sequence - |buffer.events| <= cursor
      invariant !wasReset ==> after <= cursor && got == buffer.history[after..cursor]
      invariant wasReset <==> buffer.Unreachable(after) || TooLarge(buffer.history[from..cursor])
      decreases buffer.sequence - cursor
    {
      var cursor', got', reset' := PollOnce(buffer, cursor, if wasReset then [] else got, if wasReset then cursor else after);
      Joined(buffer.history, from, cursor, cursor');
      cursor, got, wasReset := cursor', got', wasReset || reset';
    }
    assert cursor == |buffer.history|;
    ToTheEnd(buffer.history, from);
    if !wasReset { ToTheEnd(buffer.history, after); }
  }
}

/** The preview conversation of one session: a numbered list of turns, read in bounded
    pages, and a send that hands each message over at most once.

    A send reserves its turn before it hands the message to the inbox, and keeps the turn
    whatever becomes of the hand-over: a message may get lost, but it never arrives twice. */
module PreviewChat {
  import opened Results

  const MAX_TURNS: nat := 1000
  const STORE_BYTES: nat := 4 * 1024 * 1024
  const TEXT_BYTES: nat := 4096
  const PAGE_TURNS: nat := 25
  const PAGE_BYTES: nat := 65536

  /** An id as spelled, with the form ids are compared in (its lower case). */
  datatype Id = Id(key: nat, spelling: nat)

  /** `clean`: well-formed id, text not blank and without control characters. */
  datatype Input = Input(id: Id, text: nat, bytes: nat, clean: bool)

  datatype Role = User | Agent

  datatype DeliveryState = Unconfirmed | Queued | Recorded

  datatype Turn = Turn(id: Id, sequence: nat, text: nat, bytes: nat, role: Role, delivery: DeliveryState)

  datatype Page = Page(turns: seq<Turn>, cursor: nat, hasMore: bool)

  datatype Error = Invalid | TooLarge | Conflict | CapacityExceeded | Unavailable | NotRunning | Unsupported

  function Refused(input: Input): Option<Error> {
    if !input.clean then Some(Invalid) else if input.bytes > TEXT_BYTES then Some(TooLarge) else None
  }

  /** What load() insists on. */
  ghost predicate Ledger(turns: seq<Turn>) {
    && (forall i :: 0 <= i < |turns| ==> turns[i].sequence == i + 1 && TurnFits(turns[i]))
    && (forall i, j :: 0 <= i < j < |turns| ==> turns[i].id.key != turns[j].id.key)
  }

  predicate TurnFits(t: Turn) {
    (t.role == Agent) == (t.delivery == Recorded) && t.bytes <= TEXT_BYTES
  }

  /** The JSON sizes of a ledger and of a page. */
  datatype Sizes = Sizes(ledger: seq<Turn> -> nat, page: Page -> nat)

  function IndexOf(turns: seq<Turn>, id: Id): (r: Option<nat>)
    ensures r.Some? ==> r.value < |turns| && turns[r.value].id.key == id.key
    ensures r.None? ==> forall i :: 0 <= i < |turns| ==> turns[i].id.key != id.key
  {
    if turns == [] then None
    else
      var r := IndexOf(turns[..|turns| - 1], id);
      if r.Some? then r else if turns[|turns| - 1].id.key == id.key then Some(|turns| - 1) else None
  }

  function NewTurn(turns: seq<Turn>, input: Input, role: Role): Turn {
    Turn(input.id, |turns| + 1, input.text, input.bytes, role, if role == User then Unconfirmed else Recorded)
  }

  predicate Fits(sizes: Sizes, turns: seq<Turn>) {
    |turns| <= MAX_TURNS && sizes.ledger(turns) <= STORE_BYTES
  }

  /** reserve(): the turns afterwards, and the turn of this id or why there is none. */
  function Reserve(sizes: Sizes, turns: seq<Turn>, input: Input, role: Role): (seq<Turn>, Result<Turn, Error>) {
    if Refused(input).Some? then (turns, Failure(Refused(input).value))
    else
      var found := IndexOf(turns, input.id);
      if found.Some? then
        var t := turns[found.value];
        if t.role != role || t.text != input.text then (turns, Failure(Conflict)) else (turns, Success(t))
      else
        var t := NewTurn(turns, input, role);
        if !Fits(sizes, turns + [t]) then (turns, Failure(CapacityExceeded)) else (turns + [t], Success(t))
  }

  function MarkQueued(sizes: Sizes, turns: seq<Turn>, id: Id): (seq<Turn>, Result<Turn, Error>) {
    var found := IndexOf(turns, id);
    if found.None? || turns[found.value].role != User then (turns, Failure(Unavailable))
    else
      var t := turns[found.value].(delivery := Queued);
      var updated := turns[found.value := t];
      if !Fits(sizes, updated) then (turns, Failure(CapacityExceeded)) else (updated, Success(t))
  }

  lemma ReserveKeepsLedger(sizes: Sizes, turns: seq<Turn>, input: Input, role: Role)
    requires Ledger(turns)
    ensures Ledger(Reserve(sizes, turns, input, role).0)
    ensures turns <= Reserve(sizes, turns, input, role).0
  {
  }

  lemma MarkKeepsLedger(sizes: Sizes, turns: seq<Turn>, id: Id)
    requires Ledger(turns)
    ensures Ledger(MarkQueued(sizes, turns, id).0)
    ensures Ids(MarkQueued(sizes, turns, id).0) == Ids(turns)
  {
  }

  predicate Has(turns: seq<Turn>, id: Id) {
    exists t <- turns :: t.id.key == id.key
  }

  /** The user's turn of this id is queued, and every other turn is as before. */
  predicate QueuedOnly(before: seq<Turn>, after: seq<Turn>, id: Id) {
    && Has(before, id) && |after| == |before|
    && forall i :: 0 <= i < |before| ==>
         if before[i].id.key == id.key then before[i].role == User && after[i] == before[i].(delivery := Queued)
         else after[i] == before[i]
  }

  lemma {:induction false} MarkQueues(sizes: Sizes, turns: seq<Turn>, id: Id)
    requires Ledger(turns)
    ensures var (after, r) := MarkQueued(sizes, turns, id);
      && (r.Success? ==> QueuedOnly(turns, after, id) && r.value in after && r.value.id.key == id.key && r.value.delivery == Queued)
      && (r.Failure? ==> after == turns)
      && (r == Failure(Unavailable) <==> forall t <- turns :: t.id.key == id.key ==> t.role == Agent)
      && (r.Failure? && r != Failure(Unavailable) ==>
            r == Failure(CapacityExceeded) && exists fuller :: QueuedOnly(turns, fuller, id) && TooFull(sizes, fuller))
  {
    var found := IndexOf(turns, id);
    if found.Some? {
      assert turns[found.value] in turns;
      assert turns[found.value].role == User ==>
        QueuedOnly(turns, turns[found.value := turns[found.value].(delivery := Queued)], id);
    }
  }

  /** More than 1000 turns, or four mebibytes. */
  predicate TooFull(sizes: Sizes, turns: seq<Turn>) {
    |turns| > 1000 || sizes.ledger(turns) > 4_194_304
  }

  /** A reservation is for this input: one that repeats an earlier one gets that turn back,
      and a new one is numbered next and not yet delivered. */
  predicate ReservedFor(before: seq<Turn>, after: seq<Turn>, input: Input, role: Role, t: Turn) {
    && t.id.key == input.id.key && t.text == input.text && t.role == role
    && if Has(before, input.id) then after == before && t in before
       else
         && after == before + [t] && t.id == input.id && t.sequence == |before| + 1 && t.bytes == input.bytes
         && t.delivery == match role case User => Unconfirmed case Agent => Recorded
  }

  /** A turn of this id that says something else, or is somebody else's. */
  predicate HasOther(turns: seq<Turn>, input: Input, role: Role) {
    exists t <- turns :: t.id.key == input.id.key && (t.role != role || t.text != input.text)
  }

  lemma {:induction false} ReserveReserves(sizes: Sizes, turns: seq<Turn>, input: Input, role: Role)
    requires Ledger(turns)
    ensures var (after, r) := Reserve(sizes, turns, input, role);
      && (r.Success? ==> ReservedFor(turns, after, input, role, r.value))
      && (r.Failure? ==> after == turns)
      && (r == Failure(Invalid) <==> !input.clean)
      && (r == Failure(TooLarge) <==> input.clean && input.bytes > 4096)
      && (r == Failure(CapacityExceeded) <==>
            && input.clean && input.bytes <= 4096 && !Has(turns, input.id)
            && TooFull(sizes, turns + [NewTurn(turns, input, role)]))
      && (r == Failure(Conflict) <==> input.clean && input.bytes <= TEXT_BYTES && HasOther(turns, input, role))
  {
    var found := IndexOf(turns, input.id);
    if found.Some? { assert turns[found.value] in turns; }
  }

  function Ids(turns: seq<Turn>): (r: seq<Id>)
    ensures |r| == |turns| && forall i :: 0 <= i < |r| ==> r[i] == turns[i].id
  {
    seq(|turns|, i requires 0 <= i < |turns| => turns[i].id)
  }

  function PageOf(turns: seq<Turn>, from: nat, to: nat): Page
    requires from <= to <= |turns|
  {
    Page(turns[from..to], if to == from then from else turns[to - 1].sequence, to < |turns|)
  }

  /** The largest number up to which, one after the other, all fit. */
  function Longest(fits: nat -> bool, limit: nat, k: nat): (n: nat)
    requires k <= limit
    ensures k <= n <= limit
    ensures n > k ==> fits(n)
    ensures n < limit ==> !fits(n + 1)
    decreases limit - k
  {
    if k < limit && fits(k + 1) then Longest(fits, limit, k + 1) else k
  }

  lemma {:induction false} LongestIs(fits: nat -> bool, limit: nat, m: nat, k: nat)
    requires m <= k <= limit
    requires forall j :: m < j <= k ==> fits(j)
    requires k < limit ==> !fits(k + 1)
    ensures Longest(fits, limit, m) == k
    decreases k - m
  {
    if m < k {
      assert fits(m + 1);
      LongestIs(fits, limit, m + 1, k);
    }
  }

  /** Does a page with n turns stay within its bytes? */
  function Fitting(sizes: Sizes, turns: seq<Turn>, offset: nat): nat -> bool {
    (n: nat) => offset + n <= |turns| && sizes.page(PageOf(turns, offset, offset + n)) <= PAGE_BYTES
  }

  function MostTurns(turns: seq<Turn>, offset: nat): nat
    requires offset <= |turns|
  {
    if |turns| - offset < PAGE_TURNS then |turns| - offset else PAGE_TURNS
  }

  /** list(): the page behind an offset, or why there is none. */
  function PageAt(sizes: Sizes, turns: seq<Turn>, offset: nat): Result<Page, Error> {
    if offset > |turns| then Failure(Invalid)
    else
      var n := Longest(Fitting(sizes, turns, offset), MostTurns(turns, offset), 0);
      if offset < |turns| && n == 0 then Failure(Unavailable) else Success(PageOf(turns, offset, offset + n))
  }

  // ---------- the store ----------

  class Store {
    const sizes: Sizes
    var turns: seq<Turn>

    constructor (sizes: Sizes)
      ensures turns == [] && this.sizes == sizes && Ledger(turns)
    {
      this.sizes := sizes;
      turns := [];
    }

    method FindIndex(id: Id) returns (r: Option<nat>)
      ensures r == IndexOf(turns, id)
    {
      r := None;
      for i := 0 to |turns|
        invariant r == IndexOf(turns[..i], id)
      {
        assert turns[..i + 1][..i] == turns[..i];
        if r.None? && turns[i].id.key == id.key { r := Some(i); }
      }
      assert turns[..|turns|] == turns;
    }

    method ReserveTurn(input: Input, role: Role) returns (r: Result<Turn, Error>)
      requires Ledger(turns)
      modifies this`turns
      ensures Ledger(turns) && (turns, r) == Reserve(sizes, old(turns), input, role)
      ensures r.Success? ==> ReservedFor(old(turns), turns, input, role, r.value)
      ensures r.Failure? ==> turns == old(turns)
    {
      ReserveReserves(sizes, turns, input, role);
      ReserveKeepsLedger(sizes, turns, input, role);
      if Refused(input).Some? { return Failure(Refused(input).value); }
      var found := FindIndex(input.id);
      if found.Some? {
        var existing := turns[found.value];
        if existing.role != role || existing.text != input.text { return Failure(Conflict); }
        return Success(existing);
      }
      var turn := Turn(input.id, |turns| + 1, input.text, input.bytes, role, if role == User then Unconfirmed else Recorded);
      if |turns| + 1 > MAX_TURNS || sizes.ledger(turns + [turn]) > STORE_BYTES { return Failure(CapacityExceeded); }
      turns := turns + [turn];
      return Success(turn);
    }

    method MarkTurnQueued(id: Id) returns (r: Result<Turn, Error>)
      requires Ledger(turns)
      modifies this`turns
      ensures Ledger(turns) && (turns, r) == MarkQueued(sizes, old(turns), id)
      ensures r.Success? ==> QueuedOnly(old(turns), turns, id) && r.value in turns && r.value.id.key == id.key
      ensures r.Failure? ==> turns == old(turns)
    {
      MarkQueues(sizes, turns, id);
      MarkKeepsLedger(sizes, turns, id);
      var index := FindIndex(id);
      if index.None? || turns[index.value].role != User { return Failure(Unavailable); }
      var queued := turns[index.value].(delivery := Queued);
      var updated := turns[index.value := queued];
      if |updated| > MAX_TURNS || sizes.ledger(updated) > STORE_BYTES { return Failure(CapacityExceeded); }
      turns := updated;
      return Success(queued);
    }

    /** The loop of list(): one more turn while it is allowed and fits. */
    method FillPage(offset: nat) returns (page: Page)
      requires Ledger(turns) && offset <= |turns|
      ensures page == PageOf(turns, offset, offset + Longest(Fitting(sizes, turns, offset), MostTurns(turns, offset), 0))
    {
      ghost var fits := Fitting(sizes, turns, offset);
      page := Page([], offset, offset < |turns|);
      var k := 0;
      while k < PAGE_TURNS && offset + k < |turns|
        invariant 0 <= k <= PAGE_TURNS && offset + k <= |turns|
        invariant page == PageOf(turns, offset, offset + k)
        invariant forall j :: 0 < j <= k ==> fits(j)
      {
        var turn := turns[offset + k];
        var candidate := Page(page.turns + [turn], turn.sequence, turn.sequence < |turns|);
        OneMoreTurn(turns, offset, k);
        assert fits(k + 1) <==> sizes.page(candidate) <= PAGE_BYTES;
        if sizes.page(candidate) > PAGE_BYTES { break; }
        page := candidate;
        k := k + 1;
      }
      LongestIs(fits, MostTurns(turns, offset), 0, k);
    }

    /** list(): from the offset on, as many turns as the two bounds allow. */
    method List(offset: nat) returns (r: Result<Page, Error>)
      requires Ledger(turns)
      ensures r == PageAt(sizes, turns, offset)
    {
      if offset > |turns| { return Failure(Invalid); }
      var page := FillPage(offset);
      if page.hasMore && |page.turns| == 0 { return Failure(Unavailable); }
      return Success(page);
    }
  }

  lemma OneMoreTurn(turns: seq<Turn>, offset: nat, k: nat)
    requires Ledger(turns) && offset + k < |turns|
    ensures var turn := turns[offset + k];
      PageOf(turns, offset, offset + k + 1)
        == Page(PageOf(turns, offset, offset + k).turns + [turn], turn.sequence, turn.sequence < |turns|)
  {
  }

  /** A page is the turns from the offset to its cursor, within both bounds; one that
      leaves turns behind has moved on, and stopped for one of the bounds; there is none
      exactly beyond the end, or if the next turn alone is too large. */
  lemma PageFits(sizes: Sizes, turns: seq<Turn>, offset: nat)
    requires Ledger(turns)
    ensures var r := PageAt(sizes, turns, offset);
      && (r.Success? ==>
            && offset <= r.value.cursor <= |turns|
            && r.value.turns == turns[offset..r.value.cursor]
            && r.value.hasMore == (r.value.cursor < |turns|)
            && |r.value.turns| <= 25
            && (r.value.turns != [] ==> sizes.page(r.value) <= 65_536))
      && (r.Success? && r.value.hasMore ==>
            && offset < r.value.cursor
            && (|r.value.turns| == 25 || sizes.page(PageOf(turns, offset, r.value.cursor + 1)) > 65_536))
      && (r.Failure? <==>
            || offset > |turns|
            || (offset < |turns| && sizes.page(PageOf(turns, offset, offset + 1)) > 65_536))
  {
  }

  // ---------- following a conversation ----------

  datatype Event = Say(input: Input, role: Role) | Queue(id: Id) | ReadOn

  datatype Reader = Reader(cursor: nat, seen: seq<Id>, stuck: bool)

  /** A reader that follows the cursors, while turns are added and marked. */
  function Happen(sizes: Sizes, turns: seq<Turn>, r: Reader, e: Event): (seq<Turn>, Reader) {
    match e
    case Say(input, role) => (Reserve(sizes, turns, input, role).0, r)
    case Queue(id) => (MarkQueued(sizes, turns, id).0, r)
    case ReadOn =>
      match PageAt(sizes, turns, r.cursor)
      case Success(page) => (turns, Reader(page.cursor, r.seen + Ids(page.turns), r.stuck))
      case Failure(_) => (turns, r.(stuck := true))
  }

  function Watched(sizes: Sizes, events: seq<Event>): (seq<Turn>, Reader) {
    if events == [] then ([], Reader(0, [], false))
    else
      var (turns, r) := Watched(sizes, events[..|events| - 1]);
      Happen(sizes, turns, r, events[|events| - 1])
  }

  ghost predicate UpToDate(turns: seq<Turn>, r: Reader) {
    Ledger(turns) && r.cursor <= |turns| && r.seen == Ids(turns)[..r.cursor]
  }

  lemma HappenKeepsUpToDate(sizes: Sizes, turns: seq<Turn>, r: Reader, e: Event)
    requires UpToDate(turns, r)
    ensures var (turns', r') := Happen(sizes, turns, r, e); UpToDate(turns', r')
  {
    match e
    case Say(input, role) =>
      ReserveKeepsLedger(sizes, turns, input, role);
      IdsGrow(turns, Reserve(sizes, turns, input, role).0, r.cursor);
    case Queue(id) => MarkKeepsLedger(sizes, turns, id);
    case ReadOn =>
      PageFits(sizes, turns, r.cursor);
      var page := PageAt(sizes, turns, r.cursor);
      if page.Success? { NextIds(turns, r.cursor, page.value.cursor); }
  }

  /** Whatever is added and marked meanwhile: the reader has seen every turn up to its
      cursor, once and in order, under ids that differ even ignoring case. */
  lemma {:induction false} ReaderMissesNothing(sizes: Sizes, events: seq<Event>)
    ensures var (turns, r) := Watched(sizes, events);
      && UpToDate(turns, r)
      && forall i, j :: 0 <= i < j < |r.seen| ==> r.seen[i].key != r.seen[j].key
  {
    if events != [] {
      var (turns, r) := Watched(sizes, events[..|events| - 1]);
      ReaderMissesNothing(sizes, events[..|events| - 1]);
      HappenKeepsUpToDate(sizes, turns, r, events[|events| - 1]);
    }
  }

  /** A read with something left takes the reader further, unless the next turn alone is
      larger than a page. */
  lemma ReadsMoveOn(sizes: Sizes, events: seq<Event>)
    ensures var (turns, r) := Watched(sizes, events); var (_, r') := Watched(sizes, events + [ReadOn]);
      r.cursor < |turns| ==>
        || r.cursor < r'.cursor
        || (r' == r.(stuck := true) && sizes.page(PageOf(turns, r.cursor, r.cursor + 1)) > PAGE_BYTES)
  {
    ReaderMissesNothing(sizes, events);
    var (turns, r) := Watched(sizes, events);
    assert (events + [ReadOn])[..|events|] == events;
    PageFits(sizes, turns, r.cursor);
  }

  /** What the JSON form of a page with one turn adds: besides a fixed part for the ids, the
      session and the names of the fields, each byte of the text becomes at most two, because
      no text holds a control character that is written longer. */
  const PAGE_FRAME: nat := 1024

  ghost predicate JsonSized(sizes: Sizes) {
    forall page: Page :: |page.turns| == 1 ==> sizes.page(page) <= PAGE_FRAME + 2 * page.turns[0].bytes
  }

  /** So every turn fits on a page, no read fails, and no reader gets stuck. */
  lemma {:induction false} NeverStuck(sizes: Sizes, events: seq<Event>)
    requires JsonSized(sizes)
    ensures !Watched(sizes, events).1.stuck
  {
    if events != [] {
      var front := events[..|events| - 1];
      NeverStuck(sizes, front);
      ReaderMissesNothing(sizes, front);
      NextTurnFits(sizes, Watched(sizes, front).0, Watched(sizes, front).1.cursor);
    }
  }

  lemma NextTurnFits(sizes: Sizes, turns: seq<Turn>, offset: nat)
    requires JsonSized(sizes) && Ledger(turns) && offset <= |turns|
    ensures PageAt(sizes, turns, offset).Success?
    ensures offset < |turns| ==> offset < PageAt(sizes, turns, offset).value.cursor <= |turns|
  {
    PageFits(sizes, turns, offset);
    if offset < |turns| {
      var page := PageOf(turns, offset, offset + 1);
      assert page.turns == [turns[offset]] && TurnFits(turns[offset]);
    }
  }

  /** A read with something left takes the reader further ... */
  lemma EveryReadMovesOn(sizes: Sizes, events: seq<Event>)
    requires JsonSized(sizes)
    ensures var (turns, r) := Watched(sizes, events); var (turns', r') := Watched(sizes, events + [ReadOn]);
      turns' == turns && r.cursor <= r'.cursor <= |turns| && (r.cursor < |turns| ==> r.cursor < r'.cursor)
  {
    ReaderMissesNothing(sizes, events);
    var (turns, r) := Watched(sizes, events);
    assert (events + [ReadOn])[..|events|] == events;
    NextTurnFits(sizes, turns, r.cursor);
    PageFits(sizes, turns, r.cursor);
  }

  function Reads(n: nat): seq<Event> {
    if n == 0 then [] else Reads(n - 1) + [ReadOn]
  }

  /** The same turns, and at least n of them further, or at the end. */
  predicate Further(a: (seq<Turn>, Reader), b: (seq<Turn>, Reader), n: nat) {
    && b.0 == a.0 && b.1.cursor <= |a.0|
    && (a.1.cursor + n <= b.1.cursor || b.1.cursor == |a.0|)
  }

  lemma OneFurther(sizes: Sizes, a: (seq<Turn>, Reader), events: seq<Event>, n: nat)
    requires JsonSized(sizes) && Further(a, Watched(sizes, events), n)
    ensures Further(a, Watched(sizes, events + [ReadOn]), n + 1)
  {
    EveryReadMovesOn(sizes, events);
  }

  lemma {:induction false} ReadsGetFurther(sizes: Sizes, events: seq<Event>, n: nat)
    requires JsonSized(sizes)
    ensures Further(Watched(sizes, events), Watched(sizes, events + Reads(n)), n)
  {
    if n == 0 {
      ReaderMissesNothing(sizes, events);
      assert events + Reads(0) == events;
    } else {
      ReadsGetFurther(sizes, events, n - 1);
      OneFurther(sizes, Watched(sizes, events), events + Reads(n - 1), n - 1);
      assert events + Reads(n) == (events + Reads(n - 1)) + [ReadOn];
    }
  }

  /** ... and as many reads as there are turns left bring it to the end, with all of them. */
  lemma CatchesUp(sizes: Sizes, events: seq<Event>, n: nat)
    requires JsonSized(sizes) && Watched(sizes, events).1.cursor + n >= |Watched(sizes, events).0|
    ensures var (turns, r) := Watched(sizes, events + Reads(n));
      turns == Watched(sizes, events).0 && r.cursor == |turns| && r.seen == Ids(turns) && !r.stuck
  {
    ReadsGetFurther(sizes, events, n);
    ReaderMissesNothing(sizes, events + Reads(n));
    NeverStuck(sizes, events + Reads(n));
    var (turns, r) := Watched(sizes, events + Reads(n));
    assert Ids(turns)[..|turns|] == Ids(turns);
  }

  method Perform(store: Store, r: Reader, e: Event) returns (r': Reader)
    requires Ledger(store.turns)
    modifies store`turns
    ensures Ledger(store.turns) && (store.turns, r') == Happen(store.sizes, old(store.turns), r, e)
  {
    r' := r;
    match e {
      case Say(input, role) => var _ := store.ReserveTurn(input, role);
      case Queue(id) => var _ := store.MarkTurnQueued(id);
      case ReadOn =>
        var page := store.List(r.cursor);
        match page {
          case Success(p) => r' := Reader(p.cursor, r.seen + Ids(p.turns), r.stuck);
          case Failure(_) => r' := r.(stuck := true);
        }
    }
  }

  /** The reader on the store itself. */
  method Follow(sizes: Sizes, events: seq<Event>) returns (turns: seq<Turn>, r: Reader)
    ensures (turns, r) == Watched(sizes, events)
  {
    var store := new Store(sizes);
    r := Reader(0, [], false);
    for k := 0 to |events|
      invariant fresh(store) && store.sizes == sizes && Ledger(store.turns)
      invariant (store.turns, r) == Watched(sizes, events[..k])
    {
      assert events[..k + 1][..k] == events[..k];
      r := Perform(store, r, events[k]);
    }
    assert events[..|events|] == events;
    turns := store.turns;
  }

  lemma IdsGrow(before: seq<Turn>, after: seq<Turn>, cursor: nat)
    requires before <= after && cursor <= |before|
    ensures Ids(before)[..cursor] == Ids(after)[..cursor]
  {
  }

  lemma NextIds(turns: seq<Turn>, from: nat, to: nat)
    requires from <= to <= |turns|
    ensures Ids(turns)[..from] + Ids(turns[from..to]) == Ids(turns)[..to]
  {
  }

  // ---------- sending ----------

  /** The send in progress under the session's lock, if any. */
  datatype Sending = Idle | Reserved(id: Id) | HandedOver(id: Id)

  datatype Session = Session(turns: seq<Turn>, sending: Sending, enqueued: seq<Id>)

  datatype Step =
    | Send(input: Input, supported: bool, running: bool, wired: bool, saves: bool)
    | Enqueue(reached: bool, ok: bool)  // the mail was stored or not; the call said so or threw
    | Confirm(saves: bool)              // markQueued
    | Reply(input: Input, saves: bool)
    | Crash

  function SendResult(sizes: Sizes, s: Session, input: Input, supported: bool, running: bool, wired: bool): Result<Option<Turn>, Error> {
    if Refused(input).Some? then Failure(Refused(input).value)
    else
      var found := IndexOf(s.turns, input.id);
      if found.Some? then
        if s.turns[found.value].role != User || s.turns[found.value].text != input.text then Failure(Conflict)
        else Success(Some(s.turns[found.value]))
      else if !supported then Failure(Unsupported)
      else if !running then Failure(NotRunning)
      else if !wired then Failure(Unavailable)
      else Success(None)
  }

  function Advance(sizes: Sizes, s: Session, e: Step): Session {
    match e
    case Send(input, supported, running, wired, saves) =>
      if s.sending != Idle || SendResult(sizes, s, input, supported, running, wired) != Success(None) then s
      else
        var (turns, r) := Reserve(sizes, s.turns, input, User);
        if r.Failure? || !saves then s else s.(turns := turns, sending := Reserved(input.id))
    case Enqueue(reached, ok) =>
      if !s.sending.Reserved? then s
      else
        s.(enqueued := if reached then s.enqueued + [s.sending.id] else s.enqueued,
           sending := if reached && ok then HandedOver(s.sending.id) else Idle)
    case Confirm(saves) =>
      if !s.sending.HandedOver? then s
      else s.(turns := if saves then MarkQueued(sizes, s.turns, s.sending.id).0 else s.turns, sending := Idle)
    case Reply(input, saves) => if s.sending != Idle || !saves then s else s.(turns := Reserve(sizes, s.turns, input, Agent).0)
    case Crash => s.(sending := Idle)
  }

  function Play(sizes: Sizes, steps: seq<Step>): Session {
    if steps == [] then Session([], Idle, [])
    else Advance(sizes, Play(sizes, steps[..|steps| - 1]), steps[|steps| - 1])
  }

  predicate UserTurn(turns: seq<Turn>, id: Id) {
    exists i :: 0 <= i < |turns| && turns[i].id.key == id.key && turns[i].role == User
  }

  predicate HandedOverOnce(enqueued: seq<Id>) {
    forall i, j :: 0 <= i < j < |enqueued| ==> enqueued[i].key != enqueued[j].key
  }

  ghost predicate Inv(s: Session) {
    && Ledger(s.turns)
    && HandedOverOnce(s.enqueued)
    && (forall i :: 0 <= i < |s.enqueued| ==> UserTurn(s.turns, s.enqueued[i]))
    && (s.sending.Reserved? ==>
          UserTurn(s.turns, s.sending.id) && !Enqueued(s.enqueued, s.sending.id))
    && (s.sending.HandedOver? ==> Enqueued(s.enqueued, s.sending.id))
    && QueuedWereHandedOver(s)
  }

  predicate Enqueued(enqueued: seq<Id>, id: Id) {
    exists i :: 0 <= i < |enqueued| && enqueued[i].key == id.key
  }

  /** What a turn's delivery claims: `Queued` only if its message was handed over. */
  predicate QueuedWereHandedOver(s: Session) {
    forall i :: 0 <= i < |s.turns| && s.turns[i].delivery == Queued ==> Enqueued(s.enqueued, s.turns[i].id)
  }

  lemma UserTurnsStay(before: seq<Turn>, after: seq<Turn>, id: Id)
    requires UserTurn(before, id)
    requires |before| <= |after| && forall i :: 0 <= i < |before| ==> after[i].id == before[i].id && after[i].role == before[i].role
    ensures UserTurn(after, id)
  {
    var i :| 0 <= i < |before| && before[i].id.key == id.key && before[i].role == User;
    assert after[i].id.key == id.key;
  }

  lemma EnqueuedStays(enqueued: seq<Id>, more: Id, id: Id)
    requires Enqueued(enqueued, id)
    ensures Enqueued(enqueued + [more], id)
  {
    var i :| 0 <= i < |enqueued| && enqueued[i].key == id.key;
    assert (enqueued + [more])[i].key == id.key;
  }

  /** What holds of the turns and the deliveries still holds when turns are added. */
  lemma MoreTurns(s: Session, turns: seq<Turn>)
    requires Inv(s) && Ledger(turns) && s.turns <= turns
    requires forall i :: |s.turns| <= i < |turns| ==> turns[i].delivery != Queued
    ensures forall i :: 0 <= i < |s.enqueued| ==> UserTurn(turns, s.enqueued[i])
    ensures s.sending.Reserved? ==> UserTurn(turns, s.sending.id)
    ensures QueuedWereHandedOver(s.(turns := turns))
  {
    forall i | 0 <= i < |s.enqueued| ensures UserTurn(turns, s.enqueued[i]) {
      UserTurnsStay(s.turns, turns, s.enqueued[i]);
    }
    if s.sending.Reserved? { UserTurnsStay(s.turns, turns, s.sending.id); }
  }

  lemma SendKeepsInv(sizes: Sizes, s: Session, input: Input)
    requires Inv(s) && Refused(input).None? && IndexOf(s.turns, input.id).None?
    ensures Inv(s.(turns := s.turns + [NewTurn(s.turns, input, User)], sending := Reserved(input.id)))
  {
    var turns := s.turns + [NewTurn(s.turns, input, User)];
    MoreTurns(s, turns);
    assert turns[|s.turns|].id == input.id;
    assert !Enqueued(s.enqueued, input.id);
  }

  lemma EnqueueKeepsInv(s: Session, ok: bool)
    requires Inv(s) && s.sending.Reserved?
    ensures Inv(s.(enqueued := s.enqueued + [s.sending.id], sending := if ok then HandedOver(s.sending.id) else Idle))
  {
    var enqueued := s.enqueued + [s.sending.id];
    assert enqueued[|s.enqueued|] == s.sending.id;
    forall i | 0 <= i < |s.turns| && s.turns[i].delivery == Queued ensures Enqueued(enqueued, s.turns[i].id) {
      EnqueuedStays(s.enqueued, s.sending.id, s.turns[i].id);
    }
  }

  lemma ConfirmKeepsInv(sizes: Sizes, s: Session)
    requires Inv(s) && s.sending.HandedOver?
    ensures Inv(s.(turns := MarkQueued(sizes, s.turns, s.sending.id).0, sending := Idle))
  {
    MarkKeepsLedger(sizes, s.turns, s.sending.id);
    var turns := MarkQueued(sizes, s.turns, s.sending.id).0;
    forall i | 0 <= i < |s.enqueued| ensures UserTurn(turns, s.enqueued[i]) {
      UserTurnsStay(s.turns, turns, s.enqueued[i]);
    }
  }

  lemma AdvanceKeepsInv(sizes: Sizes, s: Session, e: Step)
    requires Inv(s)
    ensures Inv(Advance(sizes, s, e))
  {
    if Advance(sizes, s, e) != s {
      match e
      case Send(input, supported, running, wired, saves) => SendKeepsInv(sizes, s, input);
      case Enqueue(reached, ok) => if reached { EnqueueKeepsInv(s, ok); }
      case Confirm(saves) => if saves { ConfirmKeepsInv(sizes, s); }
      case Reply(input, saves) =>
        ReserveKeepsLedger(sizes, s.turns, input, Agent);
        MoreTurns(s, Reserve(sizes, s.turns, input, Agent).0);
      case Crash =>
    }
  }

  /** However often a message is sent again, whatever fails and whenever the bridge
      crashes: its id is handed to the agent at most once, and never without its turn; and
      a turn is marked queued only after its message was handed over. */
  lemma {:induction false} NeverHandedOverTwice(sizes: Sizes, steps: seq<Step>)
    ensures HandedOverOnce(Play(sizes, steps).enqueued)
    ensures forall i :: 0 <= i < |Play(sizes, steps).enqueued| ==> UserTurn(Play(sizes, steps).turns, Play(sizes, steps).enqueued[i])
    ensures QueuedWereHandedOver(Play(sizes, steps))
    ensures Ledger(Play(sizes, steps).turns)
  {
    PlayKeepsInv(sizes, steps);
  }

  lemma {:induction false} PlayKeepsInv(sizes: Sizes, steps: seq<Step>)
    ensures Inv(Play(sizes, steps))
  {
    if steps != [] {
      PlayKeepsInv(sizes, steps[..|steps| - 1]);
      AdvanceKeepsInv(sizes, Play(sizes, steps[..|steps| - 1]), steps[|steps| - 1]);
    }
  }

  // ---------- what a message comes to ----------

  /** A message that can be sent, and what its turn will be. */
  predicate Sendable(sizes: Sizes, s: Session, input: Input) {
    && s.sending == Idle && input.clean && input.bytes <= 4096 && !Has(s.turns, input.id)
    && !TooFull(sizes, s.turns + [Sent(s.turns, input, Unconfirmed)]) && !TooFull(sizes, s.turns + [Sent(s.turns, input, Queued)])
  }

  function Sent(turns: seq<Turn>, input: Input, delivery: DeliveryState): Turn {
    Turn(input.id, |turns| + 1, input.text, input.bytes, User, delivery)
  }

  lemma {:induction false} FoundIsThere(turns: seq<Turn>, id: Id)
    ensures IndexOf(turns, id).Some? ==> Has(turns, id)
  {
    var found := IndexOf(turns, id);
    if found.Some? { assert turns[found.value] in turns; }
  }

  lemma {:induction false} NewIsReserved(sizes: Sizes, turns: seq<Turn>, input: Input, role: Role)
    requires input.clean && input.bytes <= 4096 && !Has(turns, input.id) && !TooFull(sizes, turns + [NewTurn(turns, input, role)])
    ensures Reserve(sizes, turns, input, role) == (turns + [NewTurn(turns, input, role)], Success(NewTurn(turns, input, role)))
  {
    FoundIsThere(turns, input.id);
  }

  lemma {:induction false} LastIsFound(turns: seq<Turn>, t: Turn)
    requires !Has(turns, t.id)
    ensures IndexOf(turns + [t], t.id) == Some(|turns|)
  {
    assert (turns + [t])[..|turns|] == turns;
    FoundIsThere(turns, t.id);
  }

  /** A new message to a running session has its turn before it is handed over, is handed over
      once, and then says so. */
  lemma {:induction false} MessageIsSent(sizes: Sizes, s: Session, input: Input)
    requires Sendable(sizes, s, input)
    ensures var sent := Advance(sizes, s, Send(input, true, true, true, true));
      sent == Session(s.turns + [Sent(s.turns, input, Unconfirmed)], Reserved(input.id), s.enqueued)
    ensures var sent := Advance(sizes, s, Send(input, true, true, true, true));
      var given := Advance(sizes, sent, Enqueue(true, true));
      && given == sent.(sending := HandedOver(input.id), enqueued := s.enqueued + [input.id])
      && Advance(sizes, given, Confirm(true)) == Session(s.turns + [Sent(s.turns, input, Queued)], Idle, s.enqueued + [input.id])
  {
    NewIsReserved(sizes, s.turns, input, User);
    FoundIsThere(s.turns, input.id);
    var turns := s.turns + [Sent(s.turns, input, Unconfirmed)];
    LastIsFound(s.turns, Sent(s.turns, input, Unconfirmed));
    assert turns[|s.turns| := Sent(s.turns, input, Queued)] == s.turns + [Sent(s.turns, input, Queued)];
  }

  /** If the call fails or throws, the turn stays, unconfirmed, whether the message got there
      or not; a message for a session that cannot take it leaves no turn. */
  lemma {:induction false} FailedIsUnconfirmed(sizes: Sizes, s: Session, input: Input, reached: bool)
    requires Sendable(sizes, s, input)
    ensures var sent := Advance(sizes, s, Send(input, true, true, true, true));
      Advance(sizes, sent, Enqueue(reached, false))
        == Session(s.turns + [Sent(s.turns, input, Unconfirmed)], Idle, if reached then s.enqueued + [input.id] else s.enqueued)
    ensures forall supported, running, wired, saves ::
      !(supported && running && wired && saves) ==> Advance(sizes, s, Send(input, supported, running, wired, saves)) == s
    ensures forall supported, running, wired ::
      SendResult(sizes, s, input, supported, running, wired) ==
        if !supported then Failure(Unsupported) else if !running then Failure(NotRunning) else if !wired then Failure(Unavailable)
        else Success(None)
  {
    MessageIsSent(sizes, s, input);
    FoundIsThere(s.turns, input.id);
  }

  /** A message sent again, in whatever state its turn is, is answered with that turn and not
      handed over. */
  lemma {:induction false} AgainIsAnswered(sizes: Sizes, s: Session, input: Input, t: Turn, running: bool)
    requires Ledger(s.turns) && input.clean && input.bytes <= 4096
    requires t in s.turns && t.id.key == input.id.key && t.role == User && t.text == input.text
    ensures SendResult(sizes, s, input, true, running, true) == Success(Some(t))
    ensures Advance(sizes, s, Send(input, true, running, true, true)) == s
  {
    var found := IndexOf(s.turns, input.id);
    var i :| 0 <= i < |s.turns| && s.turns[i] == t;
  }

  /** The agent's reply is a turn at once. */
  lemma {:induction false} ReplyIsAdded(sizes: Sizes, s: Session, input: Input)
    requires s.sending == Idle && input.clean && input.bytes <= 4096 && !Has(s.turns, input.id)
    requires !TooFull(sizes, s.turns + [Turn(input.id, |s.turns| + 1, input.text, input.bytes, Agent, Recorded)])
    ensures Advance(sizes, s, Reply(input, true))
      == s.(turns := s.turns + [Turn(input.id, |s.turns| + 1, input.text, input.bytes, Agent, Recorded)])
  {
    NewIsReserved(sizes, s.turns, input, Agent);
  }
}

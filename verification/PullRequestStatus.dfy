/** The process-wide pull-request status cache: which entries a launch of gh asks about,
    when a launch may happen, and what is evicted. */
module PullRequestStatus {
  import opened Results

  const MINUTE: nat := 60_000
  const HOUR: nat := 60 * MINUTE
  const BATCH: nat := 20
  const CACHE: nat := 500

  /** The lower-cased normalised URL. */
  type Key = nat

  datatype PrState = InProgress | Failed | Passed | Merged | Closed | Unknown

  /** A time that may be JavaScript's Infinity. */
  datatype Time = At(ms: nat) | Never

  /** Why the last attempt said less than it should. */
  datatype Reason = NoChecks | Unavailable | Unauthenticated | Limited

  datatype Entry = Entry(
    state: PrState, reason: Option<Reason>, head: Option<nat>, checkedAt: Option<nat>,
    attempt: nat, lastAttempt: nat, nextAttempt: Time, used: nat)

  type Cache = map<Key, Entry>

  function Ttl(state: PrState): Time {
    match state
    case Merged => Never
    case Closed => At(HOUR)
    case Passed => At(5 * MINUTE)
    case Failed => At(5 * MINUTE)
    case _ => At(MINUTE)
  }

  function Later(now: nat, t: Time): Time {
    if t.At? then At(now + t.ms) else Never
  }

  predicate Reached(now: nat, t: Time) {
    t.At? && now >= t.ms
  }

  predicate Due(cache: Cache, now: nat, k: Key) {
    && k in cache
    && cache[k].state != Merged
    && Reached(now, cache[k].nextAttempt)
    && (cache[k].checkedAt.None? || Reached(now, Later(cache[k].checkedAt.value, Ttl(cache[k].state))))
  }

  // ---------- choosing a batch ----------

  /** An entry as far as the choice looks at it. */
  datatype Candidate = Candidate(key: Key, lastAttempt: nat, used: nat)

  /** The sort order: least recently attempted first, then least recently used. */
  predicate NotAfter(a: Candidate, b: Candidate) {
    a.lastAttempt < b.lastAttempt || (a.lastAttempt == b.lastAttempt && a.used <= b.used)
  }

  predicate Distinct<T(==)>(items: seq<T>) {
    forall i, j :: 0 <= i < j < |items| ==> items[i] != items[j]
  }

  predicate Sorted(list: seq<Candidate>) {
    forall i, j :: 0 <= i < j < |list| ==> NotAfter(list[i], list[j])
  }

  /** Insertion into a sorted list, behind its equals as a stable sort does. */
  function Insert(list: seq<Candidate>, c: Candidate): seq<Candidate> {
    if list == [] then [c]
    else if NotAfter(list[|list| - 1], c) then list + [c]
    else Insert(list[..|list| - 1], c) + [list[|list| - 1]]
  }

  function Sort(list: seq<Candidate>): seq<Candidate> {
    if list == [] then [] else Insert(Sort(list[..|list| - 1]), list[|list| - 1])
  }

  lemma {:induction false} InsertMembers(list: seq<Candidate>, c: Candidate)
    ensures |Insert(list, c)| == |list| + 1
    ensures forall x :: x in Insert(list, c) <==> x in list || x == c
    ensures Distinct(list) && c !in list ==> Distinct(Insert(list, c))
  {
    if list != [] && !NotAfter(list[|list| - 1], c) {
      var front, last := list[..|list| - 1], list[|list| - 1];
      assert list == front + [last];
      InsertMembers(front, c);
      if Distinct(list) && c !in list {
        assert last !in front;
        assert last !in Insert(front, c);
      }
    }
  }

  lemma {:induction false} InsertSorted(list: seq<Candidate>, c: Candidate)
    requires Sorted(list)
    ensures Sorted(Insert(list, c))
  {
    if list != [] {
      var front, last := list[..|list| - 1], list[|list| - 1];
      if NotAfter(last, c) {
        forall i | 0 <= i < |list| ensures NotAfter(list[i], c) {
          if i < |list| - 1 { assert NotAfter(list[i], last); }
        }
      } else {
        InsertSorted(front, c);
        InsertMembers(front, c);
        var r := Insert(front, c);
        forall i | 0 <= i < |r| ensures NotAfter(r[i], last) {
          assert r[i] in r;
          if r[i] in front {
            var j :| 0 <= j < |front| && front[j] == r[i];
            assert list[j] == r[i];
          }
        }
      }
    }
  }

  lemma {:induction false} SortFits(list: seq<Candidate>)
    ensures Sorted(Sort(list)) && |Sort(list)| == |list|
    ensures forall x :: x in Sort(list) <==> x in list
    ensures Distinct(list) ==> Distinct(Sort(list))
  {
    if list != [] {
      var front, last := list[..|list| - 1], list[|list| - 1];
      assert list == front + [last];
      SortFits(front);
      InsertSorted(Sort(front), last);
      InsertMembers(Sort(front), last);
    }
  }

  /** Both lists without repeats, foreground first. */
  function Union(a: seq<Candidate>, b: seq<Candidate>): seq<Candidate> {
    if b == [] then a
    else
      var u := Union(a, b[..|b| - 1]);
      if b[|b| - 1] in u then u else u + [b[|b| - 1]]
  }

  lemma {:induction false} UnionFits(a: seq<Candidate>, b: seq<Candidate>)
    ensures forall x :: x in Union(a, b) <==> x in a || x in b
    ensures Distinct(a) ==> Distinct(Union(a, b))
  {
    if b != [] {
      UnionFits(a, b[..|b| - 1]);
      assert b == b[..|b| - 1] + [b[|b| - 1]];
    }
  }

  /** No candidate of the list comes before c. */
  predicate Least(list: seq<Candidate>, c: Candidate) {
    c in list && forall x <- list :: NotAfter(c, x)
  }

  lemma SortHead(list: seq<Candidate>)
    requires list != []
    ensures Sort(list) != [] && Least(list, Sort(list)[0])
  {
    SortFits(list);
    var s := Sort(list);
    assert s[0] in s;
    forall x <- list ensures NotAfter(s[0], x) {
      assert x in s;
      var i :| 0 <= i < |s| && s[i] == x;
      if i > 0 { assert NotAfter(s[0], s[i]); }
    }
  }

  method Add(selected: seq<Candidate>, c: Candidate) returns (r: seq<Candidate>)
    requires Distinct(selected) && |selected| <= BATCH
    ensures Distinct(r) && |r| <= BATCH
    ensures r == if c in selected || |selected| == BATCH then selected else selected + [c]
  {
    if c !in selected && |selected| < BATCH { return selected + [c]; }
    return selected;
  }

  /** Of a list, only what was there first is selected past something that is not. */
  ghost predicate InOrder(first: seq<Candidate>, list: seq<Candidate>, selected: seq<Candidate>) {
    forall i, j :: 0 <= i < j < |list| && list[i] !in selected ==> list[j] !in selected || list[j] in first
  }

  /** Add from a list until the batch is full. */
  method Fill(first: seq<Candidate>, list: seq<Candidate>) returns (selected: seq<Candidate>)
    requires Distinct(first) && |first| <= BATCH && Distinct(list)
    ensures Distinct(selected) && |selected| <= BATCH && first <= selected
    ensures forall c <- selected :: c in first || c in list
    ensures |selected| < BATCH ==> forall c <- list :: c in selected
    ensures first == [] && list != [] ==> list[0] in selected
    ensures InOrder(first, list, selected)
  {
    selected := first;
    for i := 0 to |list|
      invariant Distinct(selected) && |selected| <= BATCH && first <= selected
      invariant forall c <- selected :: c in first || c in list[..i]
      invariant |selected| < BATCH ==> forall c <- list[..i] :: c in selected
      invariant i == 0 ==> selected == first
      invariant i > 0 && first == [] ==> list[0] in selected
      invariant InOrder(first, list[..i], selected)
    {
      assert list[..i + 1] == list[..i] + [list[i]];
      ghost var before := selected;
      selected := Add(selected, list[i]);
      FillNext(first, list, i, before, selected);
    }
    assert list[..|list|] == list;
  }

  lemma FillNext(first: seq<Candidate>, list: seq<Candidate>, i: nat, before: seq<Candidate>, after: seq<Candidate>)
    requires i < |list| && InOrder(first, list[..i], before) && Distinct(list)
    requires |before| < BATCH ==> forall c <- list[..i] :: c in before
    requires after == if list[i] in before || |before| >= BATCH then before else before + [list[i]]
    requires forall c <- before :: c in first || c in list[..i]
    ensures InOrder(first, list[..i + 1], after)
    ensures forall c <- before :: c in after
  {
    var longer := list[..i + 1];
    forall j, k | 0 <= j < k < |longer| && longer[j] !in after ensures longer[k] !in after || longer[k] in first {
      assert longer[j] == list[..i][j];
      if k < i {
        assert longer[k] == list[..i][k];
      } else {
        assert list[i] !in list[..i];
      }
    }
  }

  /** What a batch owes the two kinds of due entries. */
  ghost predicate Fair(foreground: seq<Candidate>, background: seq<Candidate>, selected: seq<Candidate>) {
    && (foreground + background != [] ==> exists c <- selected :: Least(foreground + background, c))
    && (foreground != [] && background != [] ==>
          && (exists c <- selected :: Least(foreground, c))
          && (exists c <- selected :: Least(background, c)))
  }

  /** Whoever is asked about was attempted no later than whoever is not, or heads its kind. */
  ghost predicate OldestFirst(foreground: seq<Candidate>, background: seq<Candidate>, selected: seq<Candidate>) {
    forall c <- selected, d <- foreground + background :: d !in selected ==> Precedes(foreground, background, c, d)
  }

  ghost predicate Precedes(foreground: seq<Candidate>, background: seq<Candidate>, c: Candidate, d: Candidate) {
    NotAfter(c, d) || Least(foreground, c) || Least(background, c)
  }

  /** The entries of the next launch: `foreground` and `background` are the due entries
      of the request and of the pinned group. */
  method Select(foreground: seq<Candidate>, background: seq<Candidate>) returns (selected: seq<Candidate>)
    requires Distinct(foreground)
    ensures Distinct(selected) && |selected| <= BATCH
    ensures forall c <- selected :: c in foreground || c in background
    // Whoever is due is asked about, unless the batch is full.
    ensures |selected| < BATCH ==> forall c :: c in foreground || c in background ==> c in selected
    // The least recently attempted due entry is always asked about, and so is one of each
    // kind, when both are due; for the rest, the longest waiting come first.
    ensures Fair(foreground, background, selected)
    ensures OldestFirst(foreground, background, selected)
  {
    var first := Heads(foreground, background);
    var all := Sort(Union(foreground, background));
    DueInOrder(foreground, background);
    selected := Fill(first, all);
    assert forall c <- first :: c in selected;
    SortedIsOldestFirst(foreground, background, first, all, selected);
  }

  lemma SortedIsOldestFirst(foreground: seq<Candidate>, background: seq<Candidate>, first: seq<Candidate>,
                            all: seq<Candidate>, selected: seq<Candidate>)
    requires Sorted(all) && InOrder(first, all, selected)
    requires forall c :: c in all <==> c in foreground || c in background
    requires forall c <- first :: Least(foreground, c) || Least(background, c)
    requires forall c <- selected :: c in first || c in all
    ensures OldestFirst(foreground, background, selected)
  {
    forall c <- selected, d <- foreground + background | d !in selected ensures Precedes(foreground, background, c, d) {
      if c !in first {
        var i :| 0 <= i < |all| && all[i] == c;
        var j :| 0 <= j < |all| && all[j] == d;
        assert i <= j;
      }
    }
  }

  /** When both kinds are due, the least recently attempted of each. */
  method Heads(foreground: seq<Candidate>, background: seq<Candidate>) returns (first: seq<Candidate>)
    ensures Distinct(first) && |first| <= BATCH
    ensures forall c <- first :: Least(foreground, c) || Least(background, c)
    ensures foreground == [] || background == [] ==> first == []
    ensures foreground != [] && background != [] ==> first != [] && Fair(foreground, background, first)
  {
    first := [];
    if |foreground| > 0 && |background| > 0 {
      var f, b := Sort(foreground), Sort(background);
      SortHead(foreground);
      SortHead(background);
      first := Add(first, f[0]);
      first := Add(first, b[0]);
      assert f[0] in first && b[0] in first;
      LeastOfBoth(foreground, background, f[0], b[0]);
    }
  }

  /** All that is due, sorted: the least recently attempted comes first. */
  lemma DueInOrder(foreground: seq<Candidate>, background: seq<Candidate>)
    requires Distinct(foreground)
    ensures var all := Sort(Union(foreground, background));
      && Distinct(all) && Sorted(all)
      && (forall c :: c in all <==> c in foreground || c in background)
      && (foreground + background != [] ==> all != [] && Least(foreground + background, all[0]))
  {
    var union := Union(foreground, background);
    UnionFits(foreground, background);
    SortFits(union);
    if foreground + background != [] {
      var c := (foreground + background)[0];
      assert c in union;
      SortHead(union);
    }
  }

  lemma LeastOfBoth(a: seq<Candidate>, b: seq<Candidate>, x: Candidate, y: Candidate)
    requires Least(a, x) && Least(b, y)
    ensures Least(a + b, x) || Least(a + b, y)
  {
  }

  // ---------- the service ----------

  /** The different keys of a request, in its order. */
  function Requested(urls: seq<Option<Key>>): seq<Key> {
    if urls == [] then []
    else
      var before := Requested(urls[..|urls| - 1]);
      var last := urls[|urls| - 1];
      if last.Some? && last.value !in before then before + [last.value] else before
  }

  /** The cache after every URL that parses was looked up, and the last use number. */
  function Touched(cache: Cache, sequence: nat, urls: seq<Option<Key>>): (Cache, nat) {
    if urls == [] then (cache, sequence)
    else
      var (c, s) := Touched(cache, sequence, urls[..|urls| - 1]);
      var last := urls[|urls| - 1];
      if last.None? then (c, s) else (c[last.value := Used(c, last.value).(used := s + 1)], s + 1)
  }

  /** An entry before and after its request: only its use number changes; a new one is empty,
      and due at once. */
  ghost predicate OnlyUsed(before: Cache, after: Cache, k: Key) {
    && k in after
    && if k in before then after[k] == before[k].(used := after[k].used)
       else after[k].state == Unknown && after[k].checkedAt.None? && after[k].head.None? && after[k].reason.None?
            && after[k].lastAttempt == 0 && after[k].attempt == 0 && after[k].nextAttempt == At(0)
  }

  /** Looking up a request touches exactly its entries; they are the most recently used then,
      the one mentioned last most recently. */
  lemma {:induction false} TouchedFits(cache: Cache, sequence: nat, urls: seq<Option<Key>>)
    ensures var (after, last) := Touched(cache, sequence, urls);
      && (forall k :: k in after <==> k in cache || Some(k) in urls)
      && (forall k <- cache :: Some(k) !in urls ==> after[k] == cache[k])
      && (forall k <- after :: Some(k) in urls ==> OnlyUsed(cache, after, k) && sequence < after[k].used <= last)
      && last >= sequence
      && (urls != [] && urls[|urls| - 1].Some? ==> after[urls[|urls| - 1].value].used == last)
  {
    if urls != [] {
      var init, url := urls[..|urls| - 1], urls[|urls| - 1];
      assert urls == init + [url];
      TouchedFits(cache, sequence, init);
    }
  }

  lemma {:induction false} RequestedFits(urls: seq<Option<Key>>)
    ensures Distinct(Requested(urls)) && forall k :: k in Requested(urls) <==> Some(k) in urls
  {
    if urls != [] {
      var init := urls[..|urls| - 1];
      assert urls == init + [urls[|urls| - 1]];
      RequestedFits(init);
    }
  }

  /** The candidates among some keys, in their order. */
  function Dues(cache: Cache, now: nat, keys: seq<Key>): seq<Candidate> {
    if keys == [] then []
    else
      var k := keys[|keys| - 1];
      Dues(cache, now, keys[..|keys| - 1]) + if Due(cache, now, k) then [CandidateOf(cache, k)] else []
  }

  lemma {:induction false} DuesFit(cache: Cache, now: nat, keys: seq<Key>)
    ensures forall c :: c in Dues(cache, now, keys) <==> c.key in keys && Due(cache, now, c.key) && c == CandidateOf(cache, c.key)
    ensures Distinct(keys) ==> Distinct(Dues(cache, now, keys))
  {
    if keys != [] {
      var init := keys[..|keys| - 1];
      assert keys == init + [keys[|keys| - 1]];
      DuesFit(cache, now, init);
    }
  }

  /** What setBackgroundUrls looks at: up to the URL that makes 20. */
  function Looked(urls: seq<Option<Key>>): seq<Option<Key>> {
    if urls == [] then []
    else
      var init := urls[..|urls| - 1];
      if |FirstOf(init)| < BATCH then urls else Looked(init)
  }

  lemma {:induction false} LookedStops(urls: seq<Option<Key>>, i: nat)
    requires i <= |urls| && (i == |urls| || |FirstOf(urls[..i])| >= BATCH)
    requires i > 0 ==> |FirstOf(urls[..i - 1])| < BATCH
    ensures Looked(urls) == urls[..i]
    decreases |urls| - i
  {
    if i == |urls| {
      assert urls[..i] == urls;
      if i > 0 { assert urls[..i - 1] == urls[..|urls| - 1]; }
    } else {
      var init := urls[..|urls| - 1];
      assert init[..i] == urls[..i] && (i > 0 ==> init[..i - 1] == urls[..i - 1]);
      FullStays(init, i);
      LookedStops(init, i);
    }
  }

  /** The first 20 different keys of a list, in its order. */
  function FirstOf(urls: seq<Option<Key>>): seq<Key> {
    if urls == [] then []
    else
      var before := FirstOf(urls[..|urls| - 1]);
      var last := urls[|urls| - 1];
      if |before| < BATCH && last.Some? && last.value !in before then before + [last.value] else before
  }

  lemma {:induction false} FullStays(urls: seq<Option<Key>>, i: nat)
    requires i <= |urls| && (i == |urls| || |FirstOf(urls[..i])| >= BATCH)
    ensures FirstOf(urls) == FirstOf(urls[..i])
    decreases |urls| - i
  {
    if i < |urls| {
      assert urls[..i + 1][..i] == urls[..i];
      FullStays(urls, i + 1);
    } else {
      assert urls[..i] == urls;
    }
  }

  lemma {:induction false} FirstOfFits(urls: seq<Option<Key>>)
    ensures Distinct(FirstOf(urls)) && |FirstOf(urls)| <= 20
    ensures forall k <- FirstOf(urls) :: Some(k) in urls
    ensures |FirstOf(urls)| < BATCH ==> forall u <- urls :: u.Some? ==> u.value in FirstOf(urls)
  {
    if urls != [] {
      var init := urls[..|urls| - 1];
      assert urls == init + [urls[|urls| - 1]];
      FirstOfFits(init);
    }
  }

  /** A launch of gh, as the history records it. */
  datatype Launch = Launch(at: nat, batch: set<Key>)

  /** What a pull request was found to be; its checks are those of the commit `head`. */
  datatype Finding = IsMerged | IsClosed | WithoutChecks | Pending(head: nat) | Failing(head: nat) | Passing(head: nat)

  /** What came of a launch: for each entry the finding, or None when unusable. */
  datatype Reply =
    | RateLimited(reset: nat)
    | Broken(unauthenticated: bool, quotaReset: Option<nat>)
    | Data(quotaReset: Option<nat>, findings: map<Key, Option<Finding>>)

  function StateOf(f: Finding): PrState {
    match f
    case IsMerged => Merged
    case IsClosed => Closed
    case WithoutChecks => Unknown
    case Pending(_) => InProgress
    case Failing(_) => Failed
    case Passing(_) => Passed
  }

  /** Launches at least a minute apart. */
  ghost predicate Spaced(launches: seq<Launch>) {
    forall i :: 0 <= i < |launches| - 1 ==> launches[i].at + MINUTE <= launches[i + 1].at
  }

  lemma {:induction false} SpacedApart(launches: seq<Launch>, i: nat, j: nat)
    requires Spaced(launches) && i <= j < |launches|
    ensures launches[i].at + (j - i) * MINUTE <= launches[j].at
    decreases j - i
  {
    if i < j {
      SpacedApart(launches, i, j - 1);
      assert launches[j - 1].at + MINUTE <= launches[j].at;
    }
  }

  /** At most 60 launches in any rolling hour: the sixty-first is an hour after the first. */
  lemma SixtyAnHour(launches: seq<Launch>, i: nat)
    requires Spaced(launches) && i + 60 < |launches|
    ensures launches[i + 60].at - launches[i].at >= HOUR
  {
    SpacedApart(launches, i, i + 60);
  }

  function Max(a: nat, b: nat): nat {
    if a < b then b else a
  }

  predicate UsedApart(cache: Cache, j: Key, k: Key) {
    j in cache && k in cache && j != k ==> cache[j].used != cache[k].used
  }

  /** A head commit goes with the outcome of its checks and with nothing else, what was never
      checked says nothing, and only what is merged need not be asked about again. */
  predicate EntryFits(e: Entry) {
    && (e.head.Some? <==> e.state == InProgress || e.state == Failed || e.state == Passed)
    && (e.reason == Some(NoChecks) ==> e.state == Unknown && e.checkedAt.Some?)
    && (e.checkedAt.None? ==> e.state == Unknown)
    && (e.nextAttempt == Never ==> e.state == Merged)
  }

  ghost predicate AllFit(cache: Cache) {
    forall k <- cache :: EntryFits(cache[k])
  }

  /** Use numbers are fresh, so no two entries share one. */
  ghost predicate CacheFits(cache: Cache, sequence: nat) {
    && AllFit(cache)
    && (forall k <- cache :: cache[k].used <= sequence)
    && (forall j, k :: UsedApart(cache, j, k))
  }

  function Used(cache: Cache, k: Key): Entry {
    if k in cache then cache[k] else Entry(Unknown, None, None, None, 0, 0, At(0), 0)
  }

  lemma TouchFits(cache: Cache, sequence: nat, k: Key)
    requires CacheFits(cache, sequence)
    ensures CacheFits(cache[k := Used(cache, k).(used := sequence + 1)], sequence + 1)
  {
    var after := cache[k := Used(cache, k).(used := sequence + 1)];
    forall i, j ensures UsedApart(after, i, j) { assert UsedApart(cache, i, j); }
  }

  /** Back to 500 entries, least recently used first, sparing the pinned. */
  ghost predicate EvictedTo(before: Cache, after: Cache, pinned: set<Key>) {
    && Evicted(before, after, pinned)
    && |after| == (if |before| <= CACHE then |before| else CACHE)
    && (|before| <= CACHE ==> after == before)
  }

  /** What an eviction may have done to the cache. */
  ghost predicate Evicted(before: Cache, after: Cache, pinned: set<Key>) {
    && (forall k <- after :: k in before && after[k] == before[k])
    && (forall k <- before :: k !in after ==> k !in pinned && OlderThanRest(before, after, pinned, k))
  }

  predicate OlderThanRest(before: Cache, after: Cache, pinned: set<Key>, k: Key)
    requires k in before
  {
    forall j <- after :: j !in pinned ==> before[k].used < after[j].used
  }

  lemma EvictOne(before: Cache, now: Cache, pinned: set<Key>, oldest: Key, sequence: nat)
    requires Evicted(before, now, pinned) && CacheFits(now, sequence)
    requires oldest in now && oldest !in pinned
    requires forall k <- now :: k !in pinned ==> now[oldest].used <= now[k].used
    ensures Evicted(before, now - {oldest}, pinned) && CacheFits(now - {oldest}, sequence)
  {
    var after := now - {oldest};
    forall j, k ensures UsedApart(after, j, k) { assert UsedApart(now, j, k); }
    forall k <- before | k !in after ensures k !in pinned && OlderThanRest(before, after, pinned, k) {
      if k in now {
        forall j <- after | j !in pinned ensures before[k].used < after[j].used { assert UsedApart(now, k, j); }
      }
    }
  }

  class Service {
    var cache: Cache
    var launches: seq<nat>
    var cooldown: nat
    /** A launch is running (`flight` is set). */
    var flying: bool
    var inFlight: set<Key>
    var background: seq<Key>
    var sequence: nat
    var attemptSequence: nat
    /** Every launch ever made, and the last time the clock was read. */
    ghost var history: seq<Launch>
    ghost var clock: nat

    ghost predicate Rates()
      reads this`launches, this`history, this`clock
    {
      RatesFit(launches, history, clock)
    }

    ghost predicate Entries()
      reads this`cache, this`sequence, this`background, this`inFlight, this`flying
    {
      && |background| <= BATCH && Distinct(background) && |inFlight| <= BATCH
      && (!flying ==> inFlight == {})
      && CacheFits(cache, sequence)
      && (forall k <- inFlight :: k in cache && cache[k].state != Merged)
    }

    constructor ()
      ensures Rates() && Entries() && cache == map[] && history == [] && !flying
    {
      cache, launches, cooldown, flying, inFlight, background := map[], [], 0, false, {}, [];
      sequence, attemptSequence, history, clock := 0, 0, [], 0;
    }

    /** entry(): the entry of a URL, created on first use. */
    method Touch(k: Key)
      requires Entries()
      modifies this`cache, this`sequence
      ensures Entries() && sequence == old(sequence) + 1
      ensures cache == old(cache)[k := Used(old(cache), k).(used := sequence)]
    {
      TouchFits(cache, sequence, k);
      sequence := sequence + 1;
      cache := cache[k := Used(cache, k).(used := sequence)];
    }

    /** The entry that eviction takes next. */
    method Oldest(candidates: set<Key>) returns (oldest: Key)
      requires candidates <= cache.Keys && candidates != {}
      ensures oldest in candidates && forall k <- candidates :: cache[oldest].used <= cache[k].used
    {
      var rest := candidates;
      oldest :| oldest in candidates;
      rest := rest - {oldest};
      while rest != {}
        invariant rest <= candidates && oldest in candidates
        invariant forall k <- candidates - rest :: cache[oldest].used <= cache[k].used
        decreases rest
      {
        var k :| k in rest;
        if cache[k].used < cache[oldest].used { oldest := k; }
        rest := rest - {k};
      }
    }

    /** evict(): back to 500 entries, least recently used first, never a pinned entry
        or one that is being asked about. */
    method Evict()
      requires Entries()
      modifies this`cache
      ensures Entries() && |cache| <= 500
      ensures EvictedTo(old(cache), cache, ToSet(background) + inFlight)
    {
      var pinned := ToSet(background) + inFlight;
      while |cache| > CACHE
        invariant CacheFits(cache, sequence)
        invariant Evicted(old(cache), cache, pinned)
        invariant |old(cache)| > CACHE ==> |cache| >= CACHE
        invariant |old(cache)| <= CACHE ==> cache == old(cache)
        decreases |cache|
      {
        var candidates := cache.Keys - pinned;
        if candidates == {} {
          PinnedAreFew(cache.Keys, background, inFlight);
          break;
        }
        var oldest := Oldest(candidates);
        EvictOne(old(cache), cache, pinned, oldest, sequence);
        var smaller := cache - {oldest};
        assert cache.Keys == smaller.Keys + {oldest};
        cache := smaller;
      }
    }

    method Pin(urls: seq<Option<Key>>)
      requires Entries() && background == []
      modifies this`cache, this`sequence, this`background
      ensures Entries()
      ensures background == FirstOf(urls) && forall k <- background :: k in cache
      ensures (cache, sequence) == Touched(old(cache), old(sequence), Looked(urls))
    {
      var i := 0;
      assert urls[..0] == [];
      while i < |urls| && |background| < BATCH
        invariant 0 <= i <= |urls| && Entries()
        invariant background == FirstOf(urls[..i]) && forall k <- background :: k in cache
        invariant (cache, sequence) == Touched(old(cache), old(sequence), urls[..i])
        invariant i > 0 ==> |FirstOf(urls[..i - 1])| < BATCH
      {
        assert urls[..i + 1][..i] == urls[..i];
        if urls[i].Some? {
          var k := urls[i].value;
          Touch(k);
          if k !in background { background := background + [k]; }
        }
        i := i + 1;
      }
      FullStays(urls, i);
      LookedStops(urls, i);
    }

    /** setBackgroundUrls: pin the first 20 entries; a URL that does not parse is None. */
    method SetBackground(urls: seq<Option<Key>>)
      requires Entries()
      modifies this`cache, this`sequence, this`background
      ensures Entries() && |cache| <= CACHE
      ensures background == FirstOf(urls) && forall k <- background :: k in cache
      ensures sequence == Touched(old(cache), old(sequence), Looked(urls)).1
      ensures EvictedTo(Touched(old(cache), old(sequence), Looked(urls)).0, cache, ToSet(background) + inFlight)
    {
      background := [];
      Pin(urls);
      Evict();
      assert forall k <- background :: k in ToSet(background);
    }

    /** The due keys of a list, in its order. */
    method DueAmong(keys: seq<Key>, now: nat) returns (due: seq<Candidate>)
      ensures due == Dues(cache, now, keys)
    {
      due := [];
      for i := 0 to |keys|
        invariant due == Dues(cache, now, keys[..i])
      {
        assert keys[..i + 1][..i] == keys[..i];
        if Due(cache, now, keys[i]) { due := due + [CandidateOf(cache, keys[i])]; }
      }
      assert keys[..|keys|] == keys;
    }

    /** The keys of the request, each once, every entry touched. */
    method Request(urls: seq<Option<Key>>) returns (keys: seq<Key>)
      requires Entries()
      modifies this`cache, this`sequence
      ensures Entries() && keys == Requested(urls)
      ensures (cache, sequence) == Touched(old(cache), old(sequence), urls)
    {
      keys := [];
      for i := 0 to |urls|
        invariant Entries() && keys == Requested(urls[..i])
        invariant (cache, sequence) == Touched(old(cache), old(sequence), urls[..i])
      {
        assert urls[..i + 1][..i] == urls[..i];
        if urls[i].Some? {
          Touch(urls[i].value);
          if urls[i].value !in keys { keys := keys + [urls[i].value]; }
        }
      }
      assert urls[..|urls|] == urls;
    }

    /** Forget launches of more than an hour ago. */
    method Forget(now: nat)
      requires Rates() && now >= clock
      modifies this`launches, this`clock
      ensures Rates() && clock == now
      ensures |launches| == 0 ==> AllOld(history, now)
      ensures |launches| > 0 ==> |history| > 0 && launches[|launches| - 1] == history[|history| - 1].at
    {
      clock := now;
      LaterClock(launches, history, old(clock), now);
      while |launches| > 0 && launches[0] + HOUR <= now
        invariant clock == now && RatesFit(launches, history, now)
        decreases |launches|
      {
        DropOldest(launches, history, now);
        launches := launches[1..];
      }
      NewestKnown(launches, history, now);
    }

    method RecordLaunch(now: nat, ghost batch: set<Key>)
      requires Rates() && clock == now
      requires |history| > 0 ==> history[|history| - 1].at + MINUTE <= now
      modifies this`launches, this`history
      ensures Rates() && history == old(history) + [Launch(now, batch)]
    {
      AddLaunch(launches, history, Launch(now, batch), clock);
      launches := launches + [now];
      history := history + [Launch(now, batch)];
    }

    /** Mark the chosen entries as attempted and in flight. */
    method TakeOff(selected: seq<Candidate>, now: nat)
      requires Entries() && !flying && |selected| <= BATCH
      requires forall c <- selected :: c.key in cache && cache[c.key].state != Merged
      modifies this`cache, this`attemptSequence, this`inFlight, this`flying
      ensures Entries() && flying && inFlight == KeysOf(selected)
      ensures attemptSequence == old(attemptSequence) + |selected|
      ensures AttemptsOnly(old(cache), cache, inFlight, Stamp(now), old(attemptSequence), attemptSequence)
    {
      ghost var before := cache;
      ghost var from := attemptSequence;
      for i := 0 to |selected|
        invariant AttemptsOnly(before, cache, inFlight, Stamp(now), from, attemptSequence)
        invariant inFlight == KeysOf(selected[..i]) && attemptSequence == from + i
      {
        var k := selected[i].key;
        KeysOfNext(selected, i);
        attemptSequence := attemptSequence + 1;
        AttemptNext(before, cache, inFlight, Stamp(now), k, from, attemptSequence);
        cache := cache[k := cache[k].(lastAttempt := Stamp(now), attempt := attemptSequence)];
        inFlight := inFlight + {k};
      }
      assert selected[..|selected|] == selected;
      KeysOfSize(selected);
      AttemptsKeepFit(before, cache, inFlight, Stamp(now), from, attemptSequence, sequence);
      flying := true;
    }

    /** A launch: record it, and mark its entries. */
    method Take(selected: seq<Candidate>, now: nat)
      requires Rates() && Entries() && clock == now && !flying && |selected| <= BATCH
      requires |history| > 0 ==> history[|history| - 1].at + MINUTE <= now
      requires forall c <- selected :: Due(cache, now, c.key)
      modifies this`cache, this`attemptSequence, this`inFlight, this`flying, this`launches, this`history
      ensures Rates() && Entries() && flying && inFlight == KeysOf(selected)
      ensures history == old(history) + [Launch(now, KeysOf(selected))]
      ensures AttemptsOnly(old(cache), cache, inFlight, Stamp(now), old(attemptSequence), attemptSequence)
    {
      RecordLaunch(now, KeysOf(selected));
      TakeOff(selected, now);
    }

    /** The entries to ask about, had a launch been allowed. */
    method Choose(keys: seq<Key>, foreground: bool, now: nat) returns (selected: seq<Candidate>)
      requires Entries() && Distinct(keys)
      ensures |selected| <= BATCH
      ensures var fore := Dues(cache, now, if foreground then keys else []);
              var back := Dues(cache, now, background);
              && (forall c <- selected :: Due(cache, now, c.key))
              && (selected == [] <==> fore + back == [])
              && (selected != [] ==> ChosenWell(fore, back, KeysOf(selected)))
    {
      var f := DueAmong(if foreground then keys else [], now);
      var b := DueAmong(background, now);
      DuesFit(cache, now, if foreground then keys else []);
      DuesFit(cache, now, background);
      selected := Select(f, b);
      SelectChooses(f, b, selected);
    }

    /** The time before which no launch is allowed. */
    method Allowed(now: nat) returns (allowed: nat)
      requires Rates() && now >= clock
      modifies this`launches, this`clock
      ensures Rates() && clock == now
      ensures allowed >= cooldown
      ensures |history| > 0 && now >= allowed ==> history[|history| - 1].at + MINUTE <= now
      // The hourly quota never blocks on its own.
      ensures now < allowed ==> now < cooldown || (|history| > 0 && now < history[|history| - 1].at + MINUTE)
    {
      Forget(now);
      var last := if |launches| > 0 then launches[|launches| - 1] + MINUTE else 0;
      var hour := if |launches| >= 60 then launches[0] + HOUR else 0;
      if |launches| >= 60 { QuotaIsSpacing(launches, history, now); }
      allowed := Max(cooldown, Max(last, hour));
    }

    /** The entries to ask about now: none if asking is not allowed. */
    method Decide(keys: seq<Key>, foreground: bool, now: nat) returns (selected: seq<Candidate>)
      requires Rates() && Entries() && now >= clock && Distinct(keys)
      modifies this`launches, this`clock
      ensures Rates() && clock == now && |selected| <= BATCH
      ensures var fore := Fore(cache, keys, foreground, now);
              var back := Dues(cache, now, background);
              && (selected != [] <==> MayLaunch(history, cooldown, now) && fore + back != [])
              && (selected != [] ==> ChosenWell(fore, back, KeysOf(selected)))
              && (forall c <- selected :: Due(cache, now, c.key))
    {
      var allowed := Allowed(now);
      selected := Choose(keys, foreground, now);
      if now < allowed { selected := []; }
    }

    /** The part of read() that may launch; nothing is in flight. */
    method Ask(keys: seq<Key>, foreground: bool, now: nat) returns (batch: Option<set<Key>>)
      requires Rates() && Entries() && now >= clock && !flying && Distinct(keys)
      modifies this`cache, this`attemptSequence, this`inFlight, this`flying, this`launches, this`history, this`clock
      ensures Rates() && Entries() && clock == now
      ensures batch.Some? <==>
                MayLaunch(old(history), cooldown, now) && Fore(old(cache), keys, foreground, now) + Dues(old(cache), now, background) != []
      ensures batch.Some? ==>
                && flying && inFlight == batch.value && history == old(history) + [Launch(now, batch.value)]
                && ChosenWell(Fore(old(cache), keys, foreground, now), Dues(old(cache), now, background), batch.value)
                && AttemptsOnly(old(cache), cache, batch.value, Stamp(now), old(attemptSequence), attemptSequence)
      ensures batch.None? ==>
                && cache == old(cache) && history == old(history) && attemptSequence == old(attemptSequence)
                && !flying && inFlight == {}
    {
      var selected := Decide(keys, foreground, now);
      if |selected| == 0 { return None; }
      Take(selected, now);
      return Some(inFlight);
    }

    /** The entries of a request, in a cache that is small again. */
    method Prepare(urls: seq<Option<Key>>) returns (keys: seq<Key>)
      requires Entries()
      modifies this`cache, this`sequence
      ensures Entries() && keys == Requested(urls)
      ensures sequence == Touched(old(cache), old(sequence), urls).1
      ensures EvictedTo(Touched(old(cache), old(sequence), urls).0, cache, ToSet(background) + inFlight)
    {
      keys := Request(urls);
      Evict();
    }

    method Look(urls: seq<Option<Key>>, foreground: bool, now: nat) returns (batch: Option<set<Key>>, ghost seen: Cache)
      requires Rates() && Entries() && now >= clock
      modifies this`cache, this`sequence, this`attemptSequence, this`inFlight, this`flying, this`launches, this`history, this`clock
      ensures Rates() && Entries()
      // Every URL is looked up, and then the cache made small again.
      ensures sequence == Touched(old(cache), old(sequence), urls).1
      ensures EvictedTo(Touched(old(cache), old(sequence), urls).0, seen, ToSet(background) + old(inFlight))
      // gh is asked exactly if nobody is asking, asking is allowed and something is due:
      // among the entries of the request, if it is a foreground one, or the pinned ones.
      ensures batch.Some? <==>
                && !old(flying) && MayLaunch(old(history), cooldown, now)
                && Fore(seen, Requested(urls), foreground, now) + Dues(seen, now, background) != []
      ensures batch.Some? ==>
                && flying && inFlight == batch.value && history == old(history) + [Launch(now, batch.value)]
                && ChosenWell(Fore(seen, Requested(urls), foreground, now), Dues(seen, now, background), batch.value)
                && AttemptsOnly(seen, cache, batch.value, Stamp(now), old(attemptSequence), attemptSequence)
      ensures batch.None? ==>
                && cache == seen && history == old(history) && attemptSequence == old(attemptSequence)
                && flying == old(flying) && inFlight == old(inFlight)
    {
      var keys := Prepare(urls);
      RequestedFits(urls);
      batch, seen := None, cache;
      if flying { return; }
      batch := Ask(keys, foreground, now);
    }

    /** read(), up to the launch: which entries gh is asked about, if it is asked now.
        `seen` is the cache as the choice finds it. */
    method Begin(urls: seq<Option<Key>>, foreground: bool, now: nat) returns (batch: Option<set<Key>>, ghost seen: Cache)
      requires Rates() && Entries() && now >= clock
      modifies this`cache, this`sequence, this`attemptSequence, this`inFlight, this`flying, this`launches, this`history, this`clock
      ensures Rates() && Entries()
      // Every URL is looked up, and then the cache made small again.
      ensures sequence == Touched(old(cache), old(sequence), urls).1
      ensures EvictedTo(Touched(old(cache), old(sequence), urls).0, seen, ToSet(background) + old(inFlight))
      // gh is asked exactly if nobody is asking, asking is allowed and something is due:
      // among the entries of the request, if it is a foreground one, or the pinned ones.
      ensures batch.Some? <==>
                && !old(flying) && MayLaunch(old(history), cooldown, now)
                && Fore(seen, Requested(urls), foreground, now) + Dues(seen, now, background) != []
      ensures batch.Some? ==>
                && flying && inFlight == batch.value && history == old(history) + [Launch(now, batch.value)]
                && ChosenWell(Fore(seen, Requested(urls), foreground, now), Dues(seen, now, background), batch.value)
                && AttemptsOnly(seen, cache, batch.value, Stamp(now), old(attemptSequence), attemptSequence)
      ensures batch.None? ==>
                && cache == seen && history == old(history) && attemptSequence == old(attemptSequence)
                && flying == old(flying) && inFlight == old(inFlight)
      // So in short: something is asked about exactly if something wanted is due, and only
      // what is; it counts as attempted now.
      ensures batch.Some? <==> !old(flying) && MayLaunch(old(history), cooldown, now) && SomeDue(seen, urls, foreground, background, now)
      ensures batch.Some? ==> AllDue(seen, urls, foreground, background, now, batch.value)
      ensures batch.Some? ==> AllAttempted(cache, batch.value, now, old(attemptSequence))
    {
      ghost var from := attemptSequence;
      batch, seen := Look(urls, foreground, now);
      SomeDueIff(seen, urls, foreground, background, now);
      if batch.Some? {
        ChosenAreDue(seen, urls, foreground, background, now, batch.value);
        TakenAreAttempted(seen, cache, batch.value, now, from, attemptSequence);
      }
    }

    /** refresh() and its finally block: what the reply does to the entries it was about
        and to the cooldown. `started` is when the launch happened. */
    method Finish(reply: Reply, started: nat)
      requires Rates() && Entries() && flying
      modifies this`cache, this`cooldown, this`inFlight, this`flying
      ensures Rates() && Entries() && !flying && inFlight == {} && |cache| <= CACHE
      ensures cooldown == Max(old(cooldown), Pause(reply, started))
      ensures Cooled(old(cooldown), cooldown, reply, started)
      ensures EvictedTo(RefreshAll(old(cache), old(inFlight), reply, started, cooldown), cache, ToSet(background))
      // What was asked about says what was found, or why nothing was; other entries, merged
      // ones among them, are as they were.
      ensures forall k <- cache :: k in old(cache) && (k in old(inFlight) ==> Learnt(old(cache)[k], cache[k], k, reply, started, cooldown))
      ensures forall k <- cache :: k !in old(inFlight) ==> k in old(cache) && cache[k] == old(cache)[k]
    {
      ghost var before, asked := cache, inFlight;
      Land(reply, started);
      RefreshedIsLearnt(before, cache, asked, reply, started, cooldown);
    }

    method Land(reply: Reply, started: nat)
      requires Entries() && flying
      modifies this`cache, this`cooldown, this`inFlight, this`flying
      ensures Entries() && !flying && inFlight == {} && |cache| <= CACHE
      ensures cooldown == Max(old(cooldown), Pause(reply, started))
      ensures EvictedTo(RefreshAll(old(cache), old(inFlight), reply, started, cooldown), cache, ToSet(background))
      ensures RefreshedOnly(old(cache), cache, old(inFlight), reply, started, cooldown)
    {
      ghost var before, asked := cache, inFlight;
      Cool(reply, started);
      Store(reply, started);
      Evict();
      assert ToSet(background) + {} == ToSet(background);
      RefreshedAfter(before, cache, asked, reply, started, cooldown, ToSet(background));
    }

    /** When the first of the keys falls due. */
    method FirstDue(keys: seq<Key>) returns (soonest: Option<nat>)
      requires Entries()
      ensures soonest == Soonest(cache, keys)
    {
      soonest := None;
      for i := 0 to |keys|
        invariant soonest == Soonest(cache, keys[..i])
      {
        assert keys[..i + 1][..i] == keys[..i];
        if keys[i] in cache && cache[keys[i]].state != Merged {
          var at := DueAt(cache[keys[i]]);
          if soonest.None? || at < soonest.value { soonest := Some(at); }
        }
      }
      assert keys[..|keys|] == keys;
    }

    /** The time read() proposes for the next request: the first one, at least a minute from
        now, at which a launch is allowed and one of the keys is due, or an hour from now if
        none ever will be. */
    method Propose(keys: seq<Key>, now: nat) returns (next: nat)
      requires Rates() && Entries() && now >= clock
      ensures (forall k <- keys :: k !in cache || cache[k].state == Merged) ==> next == now + HOUR
      ensures (exists k <- keys :: k in cache && cache[k].state != Merged) ==>
                && next >= now + MINUTE && MayLaunch(history, cooldown, next) && AnyDue(cache, next, keys)
                && (forall t :: now + MINUTE <= t < next ==> !(MayLaunch(history, cooldown, t) && AnyDue(cache, t, keys)))
    {
      var soonest := FirstDue(keys);
      SoonestFits(cache, keys);
      if soonest.None? { return now + HOUR; }
      var last := if |launches| > 0 then launches[|launches| - 1] + MINUTE else 0;
      var hour := if |launches| >= 60 then launches[0] + HOUR else 0;
      if |launches| >= 60 { QuotaIsSpacing(launches, history, clock); }
      next := Max(Max(now + MINUTE, cooldown), Max(Max(last, soonest.value), hour));
    }

    method Cool(reply: Reply, started: nat)
      modifies this`cooldown
      ensures cooldown == Max(old(cooldown), Pause(reply, started))
    {
      if reply.RateLimited? { cooldown := Max(cooldown, reply.reset); }
      if !reply.RateLimited? && reply.quotaReset.Some? { cooldown := Max(cooldown, reply.quotaReset.value); }
      if reply.Broken? { cooldown := Max(cooldown, started + 5 * MINUTE); }
    }

    method Store(reply: Reply, started: nat)
      requires Entries()
      modifies this`cache, this`inFlight, this`flying
      ensures Entries() && !flying && inFlight == {}
      ensures cache == RefreshAll(old(cache), old(inFlight), reply, started, cooldown)
    {
      RefreshKeepsFit(cache, sequence, inFlight, reply, started, cooldown);
      cache := RefreshAll(cache, inFlight, reply, started, cooldown);
      inFlight := {};
      flying := false;
    }
  }

  /** Until when a reply asks to be left alone. */
  function Pause(reply: Reply, started: nat): nat {
    match reply
    case RateLimited(reset) => reset
    case Broken(_, reset) => Max(started + 5 * MINUTE, if reset.Some? then reset.value else 0)
    case Data(reset, _) => if reset.Some? then reset.value else 0
  }

  /** A failed attempt leaves what is known of the pull request and says why it failed. */
  function Refreshed(e: Entry, k: Key, reply: Reply, started: nat, cooldown: nat): Entry {
    match reply
    case RateLimited(_) => e.(reason := Some(Limited), nextAttempt := At(cooldown))
    case Broken(unauthenticated, _) =>
      e.(reason := Some(if unauthenticated then Unauthenticated else Unavailable), nextAttempt := At(cooldown))
    case Data(_, findings) =>
      if k in findings && findings[k].Some? then
        var f := findings[k].value;
        e.(state := StateOf(f),
           reason := if f == WithoutChecks then Some(NoChecks) else None,
           head := if f.Pending? || f.Failing? || f.Passing? then Some(f.head) else None,
           checkedAt := Some(started),
           nextAttempt := Later(started, Ttl(StateOf(f))))
      else e.(reason := Some(Unavailable), nextAttempt := At(started + 5 * MINUTE))
  }

  /** The entry of a pull request as it was found at `started`. */
  ghost predicate FoundAs(e: Entry, f: Finding, started: nat) {
    && (e.state == Merged <==> f.IsMerged?)
    && (e.state == Closed <==> f.IsClosed?)
    && (e.state == Unknown <==> f.WithoutChecks?)
    && (e.state == InProgress <==> f.Pending?)
    && (e.state == Failed <==> f.Failing?)
    && (e.state == Passed <==> f.Passing?)
    && (e.head.Some? <==> f.Pending? || f.Failing? || f.Passing?)
    && (e.head.Some? ==> e.head.value == f.head)
    && e.reason == (if f.WithoutChecks? then Some(NoChecks) else None)
    && e.checkedAt == Some(started)
    && (forall now: nat :: Reached(now, e.nextAttempt) <==> Waited(now, started, e.state))
  }

  /** Checks that are running, or not there, may change soon; a merge is for good. */
  predicate Waited(now: nat, started: nat, state: PrState) {
    match state
    case Merged => false
    case Closed => now >= started + 3_600_000
    case Passed => now >= started + 300_000
    case Failed => now >= started + 300_000
    case InProgress => now >= started + 60_000
    case Unknown => now >= started + 60_000
  }

  /** The cooldown is never shortened, lasts as long as the reply asks for, five minutes after
      a broken one, and no longer than one of these calls for. */
  ghost predicate Cooled(before: nat, after: nat, reply: Reply, started: nat) {
    && after >= before
    && match reply
       case RateLimited(reset) => after >= reset && (after == before || after == reset)
       case Broken(_, reset) =>
         && after >= started + 300_000 && (reset.Some? ==> after >= reset.value)
         && (after == before || after == started + 300_000 || Some(after) == reset)
       case Data(reset, _) => (reset.Some? ==> after >= reset.value) && (after == before || Some(after) == reset)
  }

  /** An attempt that found nothing: what was known stays, with the reason. */
  ghost predicate FailedAs(before: Entry, after: Entry, reason: Reason, until: nat) {
    && after.state == before.state && after.head == before.head && after.checkedAt == before.checkedAt
    && after.reason == Some(reason) && (forall now: nat :: Reached(now, after.nextAttempt) <==> now >= until)
  }

  /** What an entry that was asked about is after the reply. */
  ghost predicate Learnt(before: Entry, after: Entry, k: Key, reply: Reply, started: nat, cooldown: nat) {
    && after.attempt == before.attempt && after.lastAttempt == before.lastAttempt && after.used == before.used
    && match reply
       case RateLimited(_) => FailedAs(before, after, Limited, cooldown)
       case Broken(unauthenticated, _) => FailedAs(before, after, if unauthenticated then Unauthenticated else Unavailable, cooldown)
       case Data(_, findings) =>
         if k in findings && findings[k].Some? then FoundAs(after, findings[k].value, started)
         else FailedAs(before, after, Unavailable, started + 300_000)
  }

  lemma {:induction false} RefreshedIsLearnt(before: Cache, after: Cache, asked: set<Key>, reply: Reply, started: nat, cooldown: nat)
    requires RefreshedOnly(before, after, asked, reply, started, cooldown)
    ensures forall k <- after :: k in before && (k in asked ==> Learnt(before[k], after[k], k, reply, started, cooldown))
  {
  }

  /** A pull request that was found at `started` is due again after the time its state calls
      for, and one that is merged never is. */
  lemma {:induction false} DueAgain(cache: Cache, k: Key, f: Finding, started: nat, now: nat)
    requires k in cache && FoundAs(cache[k], f, started)
    ensures Due(cache, now, k) <==>
      match f
      case IsMerged => false
      case IsClosed => now - started >= 60 * 60_000
      case Failing(_) => now - started >= 5 * 60_000
      case Passing(_) => now - started >= 5 * 60_000
      case _ => now - started >= 60_000
  {
    assert Reached(now, cache[k].nextAttempt) <==> Waited(now, started, cache[k].state);
  }

  function RefreshAll(cache: Cache, asked: set<Key>, reply: Reply, started: nat, cooldown: nat): Cache {
    map k | k in cache :: if k in asked then Refreshed(cache[k], k, reply, started, cooldown) else cache[k]
  }

  ghost predicate RefreshedOnly(before: Cache, after: Cache, asked: set<Key>, reply: Reply, started: nat, cooldown: nat) {
    forall k <- after ::
      k in before && after[k] == if k in asked then Refreshed(before[k], k, reply, started, cooldown) else before[k]
  }

  lemma RefreshedAfter(before: Cache, after: Cache, asked: set<Key>, reply: Reply, started: nat, cooldown: nat, pinned: set<Key>)
    requires EvictedTo(RefreshAll(before, asked, reply, started, cooldown), after, pinned)
    ensures RefreshedOnly(before, after, asked, reply, started, cooldown)
  {
  }

  lemma RefreshKeepsFit(cache: Cache, sequence: nat, asked: set<Key>, reply: Reply, started: nat, cooldown: nat)
    requires CacheFits(cache, sequence)
    ensures CacheFits(RefreshAll(cache, asked, reply, started, cooldown), sequence)
  {
    var after := RefreshAll(cache, asked, reply, started, cooldown);
    forall i, j ensures UsedApart(after, i, j) { assert UsedApart(cache, i, j); }
  }

  /** When an entry that is not merged falls due. */
  function DueAt(e: Entry): nat
    requires EntryFits(e) && e.state != Merged
  {
    Max(e.nextAttempt.ms, if e.checkedAt.None? then 0 else e.checkedAt.value + Ttl(e.state).ms)
  }

  predicate AnyDue(cache: Cache, now: nat, keys: seq<Key>) {
    exists k <- keys :: Due(cache, now, k)
  }

  function Soonest(cache: Cache, keys: seq<Key>): Option<nat>
    requires AllFit(cache)
  {
    if keys == [] then None
    else
      var before := Soonest(cache, keys[..|keys| - 1]);
      var k := keys[|keys| - 1];
      if k !in cache || cache[k].state == Merged then before
      else if before.None? || DueAt(cache[k]) < before.value then Some(DueAt(cache[k]))
      else before
  }

  lemma {:induction false} SoonestFits(cache: Cache, keys: seq<Key>)
    requires AllFit(cache)
    ensures Soonest(cache, keys).None? <==> forall k <- keys :: k !in cache || cache[k].state == Merged
    ensures Soonest(cache, keys).Some? ==> forall t: nat :: AnyDue(cache, t, keys) <==> t >= Soonest(cache, keys).value
  {
    if keys != [] {
      var front, last := keys[..|keys| - 1], keys[|keys| - 1];
      assert keys == front + [last];
      SoonestFits(cache, front);
      forall t: nat ensures AnyDue(cache, t, keys) <==> AnyDue(cache, t, front) || Due(cache, t, last) {}
      if last in cache && cache[last].state != Merged {
        forall t: nat ensures Due(cache, t, last) <==> t >= DueAt(cache[last]) {}
      }
      if Soonest(cache, front).None? {
        forall t: nat ensures !AnyDue(cache, t, front) {}
      }
    }
  }

  /** The due entries of a request: none if it is not a foreground one. */
  function Fore(cache: Cache, keys: seq<Key>, foreground: bool, now: nat): seq<Candidate> {
    Dues(cache, now, if foreground then keys else [])
  }

  /** A due entry of the request, if it is a foreground one, or a due pinned entry. */
  predicate DueFor(cache: Cache, urls: seq<Option<Key>>, foreground: bool, pinned: seq<Key>, now: nat, k: Key) {
    Due(cache, now, k) && (k in pinned || (foreground && Some(k) in urls))
  }

  ghost predicate SomeDue(cache: Cache, urls: seq<Option<Key>>, foreground: bool, pinned: seq<Key>, now: nat) {
    exists k <- cache :: DueFor(cache, urls, foreground, pinned, now, k)
  }

  ghost predicate AllDue(cache: Cache, urls: seq<Option<Key>>, foreground: bool, pinned: seq<Key>, now: nat, batch: set<Key>) {
    |batch| <= 20 && forall k <- batch :: DueFor(cache, urls, foreground, pinned, now, k)
  }

  /** Attempted now; at time zero it counts as a moment later. */
  ghost predicate AllAttempted(cache: Cache, batch: set<Key>, now: nat, from: nat) {
    forall k <- batch :: k in cache && cache[k].lastAttempt == (if now > 0 then now else 1) && cache[k].attempt > from
  }

  lemma {:induction false} SomeDueIff(cache: Cache, urls: seq<Option<Key>>, foreground: bool, pinned: seq<Key>, now: nat)
    ensures SomeDue(cache, urls, foreground, pinned, now) <==>
      Fore(cache, Requested(urls), foreground, now) + Dues(cache, now, pinned) != []
  {
    var fore, back := Fore(cache, Requested(urls), foreground, now), Dues(cache, now, pinned);
    RequestedFits(urls);
    DuesFit(cache, now, if foreground then Requested(urls) else []);
    DuesFit(cache, now, pinned);
    if fore + back != [] {
      var c := (fore + back)[0];
      assert c in fore || c in back;
      assert DueFor(cache, urls, foreground, pinned, now, c.key);
    }
    if k: Key :| k in cache && DueFor(cache, urls, foreground, pinned, now, k) {
      assert CandidateOf(cache, k) in fore || CandidateOf(cache, k) in back;
    }
  }

  lemma {:induction false} ChosenAreDue(cache: Cache, urls: seq<Option<Key>>, foreground: bool, pinned: seq<Key>, now: nat, batch: set<Key>)
    requires ChosenWell(Fore(cache, Requested(urls), foreground, now), Dues(cache, now, pinned), batch)
    ensures AllDue(cache, urls, foreground, pinned, now, batch)
  {
    var fore, back := Fore(cache, Requested(urls), foreground, now), Dues(cache, now, pinned);
    RequestedFits(urls);
    DuesFit(cache, now, if foreground then Requested(urls) else []);
    DuesFit(cache, now, pinned);
    forall k <- batch ensures DueFor(cache, urls, foreground, pinned, now, k) {
      var c: Candidate :| c in fore + back && c.key == k;
      assert c in fore || c in back;
    }
  }

  lemma {:induction false} TakenAreAttempted(before: Cache, after: Cache, batch: set<Key>, now: nat, from: nat, last: nat)
    requires AttemptsOnly(before, after, batch, Stamp(now), from, last)
    ensures AllAttempted(after, batch, now, from)
  {
  }

  /** Past the cooldown, and a minute after the last launch. */
  ghost predicate MayLaunch(history: seq<Launch>, cooldown: nat, now: nat) {
    now >= cooldown && (|history| > 0 ==> history[|history| - 1].at + MINUTE <= now)
  }

  /** Zero would mean that an entry was never attempted. */
  function Stamp(now: nat): nat {
    if now == 0 then 1 else now
  }

  /** A batch as a launch needs it: at most 20 due entries, all of them if they fit, with the
      least recently attempted of all and of each kind, and otherwise the longest waiting. */
  ghost predicate ChosenWell(fore: seq<Candidate>, back: seq<Candidate>, batch: set<Key>) {
    && |batch| <= BATCH && batch != {}
    && (forall k <- batch :: exists c <- fore + back :: c.key == k)
    && (|batch| < BATCH ==> forall c <- fore + back :: c.key in batch)
    && LeastChosen(fore + back, batch)
    && (fore != [] && back != [] ==> LeastChosen(fore, batch) && LeastChosen(back, batch))
    && (forall c <- fore + back, d <- fore + back :: c.key in batch && d.key !in batch ==> Precedes(fore, back, c, d))
  }

  ghost predicate LeastChosen(list: seq<Candidate>, batch: set<Key>) {
    exists c <- list :: Least(list, c) && c.key in batch
  }

  /** A candidate is known by its key. */
  ghost predicate Keyed(list: seq<Candidate>) {
    forall c <- list, d <- list :: c.key == d.key ==> c == d
  }

  lemma SelectChooses(fore: seq<Candidate>, back: seq<Candidate>, selected: seq<Candidate>)
    requires Distinct(selected) && |selected| <= BATCH && Keyed(fore + back)
    requires forall c <- selected :: c in fore || c in back
    requires |selected| < BATCH ==> forall c :: c in fore || c in back ==> c in selected
    requires Fair(fore, back, selected) && OldestFirst(fore, back, selected)
    ensures selected != [] ==> ChosenWell(fore, back, KeysOf(selected))
    ensures selected == [] <==> fore + back == []
  {
    if selected != [] {
      var batch := KeysOf(selected);
      assert forall c <- selected :: c in fore + back && c.key in batch;
      KeysOfExact(selected);
      assert selected[0] in selected && selected[0].key in batch;
      forall c <- fore + back, d <- fore + back | c.key in batch && d.key !in batch ensures Precedes(fore, back, c, d) {
        assert c in selected && d !in selected;
      }
    }
  }

  lemma {:induction false} KeysOfExact(list: seq<Candidate>)
    requires Distinct(list) && Keyed(list)
    ensures |KeysOf(list)| == |list|
  {
    if list != [] {
      var init := list[..|list| - 1];
      assert list == init + [list[|list| - 1]];
      KeysOfExact(init);
      KeysOfNext(list, |list| - 1);
      assert list[..|list|] == list;
      assert list[|list| - 1] !in init;
      assert list[|list| - 1].key !in KeysOf(init);
    }
  }

  lemma {:induction false} KeysOfSize(list: seq<Candidate>)
    ensures |KeysOf(list)| <= |list|
  {
    if list != [] {
      KeysOfSize(list[..|list| - 1]);
      KeysOfNext(list, |list| - 1);
      assert list[..|list|] == list;
    }
  }

  lemma KeysOfNext(list: seq<Candidate>, i: nat)
    requires i < |list|
    ensures KeysOf(list[..i + 1]) == KeysOf(list[..i]) + {list[i].key}
  {
    assert list[..i + 1] == list[..i] + [list[i]];
  }

  /** Only attempt data of the entries in flight changed: each has the stamp and a new number. */
  ghost predicate AttemptsOnly(before: Cache, after: Cache, inFlight: set<Key>, stamp: nat, from: nat, last: nat) {
    && after.Keys == before.Keys && inFlight <= before.Keys && from <= last
    && forall k <- before :: AttemptOnly(before[k], after[k], k in inFlight, stamp, from, last)
  }

  predicate AttemptOnly(e: Entry, e': Entry, flies: bool, stamp: nat, from: nat, last: nat) {
    if flies then e' == e.(attempt := e'.attempt, lastAttempt := stamp) && from < e'.attempt <= last else e' == e
  }

  lemma AttemptsKeepFit(before: Cache, after: Cache, inFlight: set<Key>, stamp: nat, from: nat, last: nat, sequence: nat)
    requires AttemptsOnly(before, after, inFlight, stamp, from, last) && CacheFits(before, sequence)
    ensures CacheFits(after, sequence)
    ensures forall k <- before :: after[k].state == before[k].state
  {
    forall k <- before ensures after[k].used == before[k].used && after[k].state == before[k].state {
      assert AttemptOnly(before[k], after[k], k in inFlight, stamp, from, last);
    }
    forall i, j ensures UsedApart(after, i, j) { assert UsedApart(before, i, j); }
  }

  lemma AttemptNext(before: Cache, now: Cache, inFlight: set<Key>, stamp: nat, k: Key, from: nat, last: nat)
    requires last > from && AttemptsOnly(before, now, inFlight, stamp, from, last - 1) && k in now
    ensures AttemptsOnly(before, now[k := now[k].(lastAttempt := stamp, attempt := last)], inFlight + {k}, stamp, from, last)
  {
    var after := now[k := now[k].(lastAttempt := stamp, attempt := last)];
    forall j <- before ensures AttemptOnly(before[j], after[j], j in inFlight + {k}, stamp, from, last) {
      assert AttemptOnly(before[j], now[j], j in inFlight, stamp, from, last - 1);
    }
  }

  // ---------- launches and their history ----------

  /** `launches` are the newest launches of the history; what it forgot is an hour old. */
  ghost predicate RatesFit(launches: seq<nat>, history: seq<Launch>, clock: nat) {
    && Spaced(history) && Newest(launches, history)
    && (|launches| < |history| ==> history[|history| - |launches| - 1].at + HOUR <= clock)
    && (|history| > 0 ==> history[|history| - 1].at <= clock)
  }

  predicate Newest(launches: seq<nat>, history: seq<Launch>) {
    |launches| <= |history| && forall i :: 0 <= i < |launches| ==> launches[i] == history[|history| - |launches| + i].at
  }

  ghost predicate AllOld(history: seq<Launch>, now: nat) {
    |history| > 0 ==> history[|history| - 1].at + HOUR <= now
  }

  lemma LaterClock(launches: seq<nat>, history: seq<Launch>, clock: nat, now: nat)
    requires RatesFit(launches, history, clock) && clock <= now
    ensures RatesFit(launches, history, now)
  {
  }

  lemma DropOldest(launches: seq<nat>, history: seq<Launch>, now: nat)
    requires RatesFit(launches, history, now) && launches != [] && launches[0] + HOUR <= now
    ensures RatesFit(launches[1..], history, now)
  {
  }

  lemma NewestKnown(launches: seq<nat>, history: seq<Launch>, now: nat)
    requires RatesFit(launches, history, now)
    ensures |launches| == 0 ==> AllOld(history, now)
    ensures |launches| > 0 ==> launches[|launches| - 1] == history[|history| - 1].at
  {
  }

  lemma AddLaunch(launches: seq<nat>, history: seq<Launch>, l: Launch, clock: nat)
    requires RatesFit(launches, history, clock) && l.at == clock
    requires |history| > 0 ==> history[|history| - 1].at + MINUTE <= l.at
    ensures RatesFit(launches + [l.at], history + [l], clock)
  {
  }

  /** Sixty launches a minute apart reach back an hour, so the last one blocks too. */
  lemma QuotaIsSpacing(launches: seq<nat>, history: seq<Launch>, now: nat)
    requires RatesFit(launches, history, now) && |launches| >= 60
    ensures launches[0] + HOUR <= history[|history| - 1].at + MINUTE
  {
    SpacedApart(history, |history| - |launches|, |history| - 1);
  }

  function KeysOf(list: seq<Candidate>): set<Key> {
    set c | c in list :: c.key
  }

  function CandidateOf(cache: Cache, k: Key): Candidate
    requires k in cache
  {
    Candidate(k, cache[k].lastAttempt, cache[k].used)
  }

  function ToSet(keys: seq<Key>): set<Key> {
    set k | k in keys
  }

  lemma {:induction false} ToSetSize(keys: seq<Key>)
    ensures |ToSet(keys)| <= |keys|
  {
    if keys != [] {
      var front, last := keys[..|keys| - 1], keys[|keys| - 1];
      ToSetSize(front);
      assert keys == front + [last];
      assert ToSet(keys) == ToSet(front) + {last};
    }
  }

  lemma PinnedAreFew(keys: set<Key>, background: seq<Key>, inFlight: set<Key>)
    requires |background| <= BATCH && |inFlight| <= BATCH && keys - (ToSet(background) + inFlight) == {}
    ensures |keys| <= CACHE
  {
    ToSetSize(background);
    var pinned := ToSet(background) + inFlight;
    forall k <- keys ensures k in pinned {
      assert k !in keys - pinned;
    }
    SubsetSize(keys, pinned);
    assert |pinned| == |ToSet(background)| + |inFlight| - |ToSet(background) * inFlight|;
  }

  lemma {:induction false} SubsetSize(a: set<Key>, b: set<Key>)
    requires a <= b
    ensures |a| <= |b|
  {
    if a != {} {
      var x :| x in a;
      SubsetSize(a - {x}, b - {x});
    }
  }
}

/** How the watcher goes round the pull-request links: groups of at most 20, taken in
    the order of the keys from where the last finished group ended. */
module PullRequestEvents {

  const GROUP: nat := 20

  /** A lower-cased URL, by its place in the order of strings; the cursor starts before all. */
  type Key = int

  predicate Ascending(keys: seq<Key>) {
    forall i, j :: 0 <= i < j < |keys| ==> keys[i] < keys[j]
  }

  /** The first key behind the cursor, or the first of all. */
  function StartOf(keys: seq<Key>, cursor: Key): (start: nat)
    requires keys != [] && Ascending(keys)
    ensures start < |keys|
    ensures cursor < keys[start] || (start == 0 && keys[|keys| - 1] <= cursor)
    ensures forall i :: 0 <= i < start ==> keys[i] <= cursor
  {
    FirstBehind(keys, cursor, 0)
  }

  function FirstBehind(keys: seq<Key>, cursor: Key, from: nat): (start: nat)
    requires keys != [] && from <= |keys|
    requires forall i :: 0 <= i < from ==> keys[i] <= cursor
    ensures start < |keys|
    ensures cursor < keys[start] || (start == 0 && keys[|keys| - 1] <= cursor)
    ensures forall i :: 0 <= i < start ==> keys[i] <= cursor
    decreases |keys| - from
  {
    if from == |keys| then 0
    else if keys[from] > cursor then from
    else FirstBehind(keys, cursor, from + 1)
  }

  function Select(keys: seq<Key>, cursor: Key): seq<Key>
    requires keys != [] && Ascending(keys)
  {
    var start := StartOf(keys, cursor);
    var turned := keys[start..] + keys[..start];
    if |turned| > GROUP then turned[..GROUP] else turned
  }

  /** Index i steps further round a list of n. */
  function Round(start: nat, i: nat, n: nat): (r: nat)
    requires start < n
    ensures r < n
  {
    if i == 0 then start
    else
      var before := Round(start, i - 1, n);
      if before + 1 == n then 0 else before + 1
  }

  lemma {:induction false} RoundOnce(start: nat, i: nat, n: nat)
    requires start < n && i <= n
    ensures Round(start, i, n) == if start + i < n then start + i else start + i - n
  {
    if i > 0 { RoundOnce(start, i - 1, n); }
  }

  lemma {:induction false} RoundAdds(start: nat, i: nat, j: nat, n: nat)
    requires start < n
    ensures Round(Round(start, i, n), j, n) == Round(start, i + j, n)
  {
    if j > 0 { RoundAdds(start, i, j - 1, n); }
  }

  function Size(n: nat): nat {
    if n > GROUP then GROUP else n
  }

  /** How many keys so many groups hold. */
  function Total(groups: nat, n: nat): nat {
    if groups == 0 then 0 else Total(groups - 1, n) + Size(n)
  }

  /** A group is the next stretch of the round. */
  lemma SelectIsStretch(keys: seq<Key>, cursor: Key)
    requires keys != [] && Ascending(keys)
    ensures |Select(keys, cursor)| == Size(|keys|)
    ensures forall i :: 0 <= i < |Select(keys, cursor)| ==>
              Select(keys, cursor)[i] == keys[Round(StartOf(keys, cursor), i, |keys|)]
  {
    var start := StartOf(keys, cursor);
    forall i | 0 <= i < |Select(keys, cursor)|
      ensures Select(keys, cursor)[i] == keys[Round(start, i, |keys|)]
    {
      RoundOnce(start, i, |keys|);
    }
  }

  /** The cursor of a finished group starts the next one right behind it. */
  lemma NextStart(keys: seq<Key>, cursor: Key)
    requires keys != [] && Ascending(keys)
    ensures var g := Select(keys, cursor);
      StartOf(keys, g[|g| - 1]) == Round(StartOf(keys, cursor), |g|, |keys|)
  {
    SelectIsStretch(keys, cursor);
    var g := Select(keys, cursor);
    var last := Round(StartOf(keys, cursor), |g| - 1, |keys|);
    assert g[|g| - 1] == keys[last];
    var next := StartOf(keys, keys[last]);
    if last + 1 < |keys| {
      assert keys[last] < keys[last + 1];
      assert next == last + 1;
    } else {
      assert forall i :: 0 <= i < |keys| ==> keys[i] <= keys[last];
    }
  }

  // ---------- the watcher ----------

  /** The links one scan finds, and whether every entry of its group was observed or
      attempted. */
  datatype Scan = Scan(keys: seq<Key>, finished: bool)

  /** `done` lists the keys of all finished groups. */
  datatype Watch = Watch(group: seq<Key>, cursor: Key, done: seq<Key>)

  predicate AllIn(group: seq<Key>, keys: seq<Key>) {
    forall k <- group :: k in keys
  }

  /** The group one scan looks at: the one under way if all its links are still there. */
  function Chosen(w: Watch, keys: seq<Key>): (g: seq<Key>)
    requires Ascending(keys)
  {
    if w.group != [] && AllIn(w.group, keys) then w.group
    else if keys == [] then []
    else Select(keys, w.cursor)
  }

  function Scanned(w: Watch, s: Scan): Watch
    requires Ascending(s.keys)
  {
    var g := Chosen(w, s.keys);
    if g == [] then w.(group := [])
    else if s.finished then Watch([], g[|g| - 1], w.done + g)
    else w.(group := g)
  }

  ghost predicate Sorted(scans: seq<Scan>) {
    forall s <- scans :: Ascending(s.keys)
  }

  function Play(w: Watch, scans: seq<Scan>): Watch
    requires Sorted(scans)
  {
    if scans == [] then w else Scanned(Play(w, scans[..|scans| - 1]), scans[|scans| - 1])
  }

  class Watcher {
    var group: seq<Key>
    var cursor: Key
    ghost var done: seq<Key>

    ghost function Now(): Watch
      reads this
    {
      Watch(group, cursor, done)
    }

    constructor (before: Key)
      ensures Now() == Watch([], before, [])
    {
      group, cursor, done := [], before, [];
    }

    method FindStart(keys: seq<Key>) returns (start: nat)
      requires keys != [] && Ascending(keys)
      ensures start == StartOf(keys, cursor)
    {
      var i := 0;
      while i < |keys| && keys[i] <= cursor
        invariant 0 <= i <= |keys|
        invariant forall j :: 0 <= j < i ==> keys[j] <= cursor
      {
        i := i + 1;
      }
      start := if i == |keys| then 0 else i;
      assert i < |keys| - 1 ==> keys[i] < keys[|keys| - 1];
    }

    /** Keep the group, or take the next one. */
    method Choose(keys: seq<Key>)
      requires Ascending(keys)
      modifies this`group
      ensures group == Chosen(old(Now()), keys)
    {
      if exists k <- group :: k !in keys { group := []; }
      if |group| == 0 && |keys| > 0 {
        var start := FindStart(keys);
        var turned := keys[start..] + keys[..start];
        group := if |turned| > GROUP then turned[..GROUP] else turned;
      }
    }

    /** One scan; returns the group it looked at. */
    method ScanOnce(s: Scan) returns (scanned: seq<Key>)
      requires Ascending(s.keys)
      modifies this
      ensures scanned == Chosen(old(Now()), s.keys) && Now() == Scanned(old(Now()), s)
      // A group under way goes on while all its links are there, ...
      ensures old(group) != [] && (forall k <- old(group) :: k in s.keys) ==> scanned == old(group)
      // ... else a new one is taken, of 20 links or all there are.
      ensures old(group) == [] || (exists k <- old(group) :: k !in s.keys) ==>
                |scanned| == (if |s.keys| < 20 then |s.keys| else 20) && forall k <- scanned :: k in s.keys
      // It is over when all of it was looked at, and the next one starts behind it.
      ensures scanned == [] ==> group == [] && cursor == old(cursor) && done == old(done)
      ensures scanned != [] && s.finished ==> group == [] && cursor == scanned[|scanned| - 1] && done == old(done) + scanned
      ensures scanned != [] && !s.finished ==> group == scanned && cursor == old(cursor) && done == old(done)
    {
      if s.keys != [] {
        SelectIsStretch(s.keys, cursor);
        SelectedAreThere(s.keys, cursor);
      }
      Choose(s.keys);
      scanned := group;
      if |group| == 0 { return; }
      if s.finished {
        cursor := group[|group| - 1];
        done := done + group;
        group := [];
      }
    }

    /** Any number of scans. */
    method Rounds(scans: seq<Scan>)
      requires Sorted(scans)
      modifies this
      ensures Now() == Play(old(Now()), scans)
    {
      for i := 0 to |scans|
        invariant Now() == Play(old(Now()), scans[..i])
      {
        assert scans[..i + 1][..i] == scans[..i];
        var _ := ScanOnce(scans[i]);
      }
      assert scans[..|scans|] == scans;
    }
  }

  // ---------- links that stay the same ----------

  ghost predicate InTurn(keys: seq<Key>, start: nat, scanned: seq<Key>)
    requires start < |keys|
  {
    forall i :: 0 <= i < |scanned| ==> scanned[i] == keys[Round(start, i, |keys|)]
  }

  lemma OneMoreGroup(keys: seq<Key>, start: nat, scanned: seq<Key>, cursor: Key)
    requires keys != [] && Ascending(keys) && start < |keys| && InTurn(keys, start, scanned)
    requires StartOf(keys, cursor) == Round(start, |scanned|, |keys|)
    ensures var g := Select(keys, cursor);
      && |g| == Size(|keys|) && g != []
      && InTurn(keys, start, scanned + g)
      && StartOf(keys, g[|g| - 1]) == Round(start, |scanned| + |g|, |keys|)
  {
    var g := Select(keys, cursor);
    SelectIsStretch(keys, cursor);
    NextStart(keys, cursor);
    RoundAdds(start, |scanned|, |g|, |keys|);
    InTurnGrows(keys, start, scanned, g, StartOf(keys, cursor));
  }

  lemma InTurnGrows(keys: seq<Key>, start: nat, scanned: seq<Key>, g: seq<Key>, from: nat)
    requires start < |keys| && InTurn(keys, start, scanned) && |g| <= |keys|
    requires from == Round(start, |scanned|, |keys|)
    requires forall i :: 0 <= i < |g| ==> g[i] == keys[Round(from, i, |keys|)]
    ensures InTurn(keys, start, scanned + g)
  {
    var all := scanned + g;
    forall i | 0 <= i < |all| ensures all[i] == keys[Round(start, i, |keys|)] {
      if i >= |scanned| {
        RoundAdds(start, |scanned|, i - |scanned|, |keys|);
        assert all[i] == g[i - |scanned|];
      }
    }
  }

  lemma AllScanned(keys: seq<Key>, start: nat, scanned: seq<Key>)
    requires start < |keys| <= |scanned| && InTurn(keys, start, scanned)
    ensures forall k <- keys :: k in scanned
  {
    forall k <- keys ensures k in scanned {
      var at :| 0 <= at < |keys| && keys[at] == k;
      var i := if at >= start then at - start else at + |keys| - start;
      RoundOnce(start, i, |keys|);
      assert scanned[i] == k;
    }
  }

  function Finished(scans: seq<Scan>): nat {
    if scans == [] then 0 else Finished(scans[..|scans| - 1]) + if scans[|scans| - 1].finished then 1 else 0
  }

  ghost predicate NextInTurn(keys: seq<Key>, start: nat, w: Watch)
    requires keys != [] && Ascending(keys) && start < |keys|
  {
    && InTurn(keys, start, w.done)
    && StartOf(keys, w.cursor) == Round(start, |w.done|, |keys|)
    && (w.group == [] || w.group == Select(keys, w.cursor))
  }

  lemma SelectedAreThere(keys: seq<Key>, cursor: Key)
    requires keys != [] && Ascending(keys)
    ensures AllIn(Select(keys, cursor), keys)
  {
  }

  lemma ChosenIsNext(keys: seq<Key>, w: Watch)
    requires keys != [] && Ascending(keys) && (w.group == [] || w.group == Select(keys, w.cursor))
    ensures Chosen(w, keys) == Select(keys, w.cursor)
  {
    SelectedAreThere(keys, w.cursor);
  }

  lemma ScanInTurn(keys: seq<Key>, start: nat, w: Watch, finished: bool)
    requires keys != [] && Ascending(keys) && start < |keys| && NextInTurn(keys, start, w)
    ensures var t := Scanned(w, Scan(keys, finished));
      NextInTurn(keys, start, t) && |t.done| == |w.done| + if finished then Size(|keys|) else 0
  {
    ChosenIsNext(keys, w);
    OneMoreGroup(keys, start, w.done, w.cursor);
  }

  lemma {:induction false} StaysInTurn(keys: seq<Key>, cursor: Key, scans: seq<Scan>)
    requires keys != [] && Ascending(keys) && Sorted(scans)
    requires forall s <- scans :: s.keys == keys
    ensures NextInTurn(keys, StartOf(keys, cursor), Play(Watch([], cursor, []), scans))
    ensures |Play(Watch([], cursor, []), scans).done| == Total(Finished(scans), |keys|)
  {
    if scans != [] {
      var front, last := scans[..|scans| - 1], scans[|scans| - 1];
      assert last in scans;
      StaysInTurn(keys, cursor, front);
      ScanInTurn(keys, StartOf(keys, cursor), Play(Watch([], cursor, []), front), last.finished);
    }
  }

  /** Over links that stay the same, with any scans unfinished: the finished groups are
      the list of links, round and round, with no link left out and none out of turn. */
  lemma RoundAndRound(keys: seq<Key>, cursor: Key, scans: seq<Scan>)
    requires keys != [] && Ascending(keys) && Sorted(scans)
    requires forall s <- scans :: s.keys == keys
    ensures var w := Play(Watch([], cursor, []), scans);
      && InTurn(keys, StartOf(keys, cursor), w.done)
      && |w.done| == Total(Finished(scans), |keys|)
      && (|w.done| >= |keys| ==> forall k <- keys :: k in w.done)
  {
    StaysInTurn(keys, cursor, scans);
    var w := Play(Watch([], cursor, []), scans);
    if |w.done| >= |keys| { AllScanned(keys, StartOf(keys, cursor), w.done); }
  }

  // ---------- links that come and go ----------

  /** Going up from `from` and round, x comes before `to`. */
  predicate Between(from: Key, x: Key, to: Key) {
    if from < to then from < x < to else x > from || x < to
  }

  /** A member of a group that does not contain k is reached before k. */
  lemma ReachedBefore(keys: seq<Key>, cursor: Key, at: nat, i: nat)
    requires keys != [] && Ascending(keys) && at < |keys| && i < |Select(keys, cursor)|
    requires keys[at] !in Select(keys, cursor)
    ensures Between(cursor, Select(keys, cursor)[i], keys[at])
    ensures |Select(keys, cursor)| == GROUP
  {
    SelectIsStretch(keys, cursor);
    var g := Select(keys, cursor);
    var start := StartOf(keys, cursor);
    var steps := if at >= start then at - start else at + |keys| - start;
    RoundOnce(start, steps, |keys|);
    forall h | 0 <= h < |g| ensures Round(start, h, |keys|) != at {
      assert g[h] in g;
    }
    RoundOnce(start, i, |keys|);
    var j := Round(start, i, |keys|);
    assert g[i] == keys[j];
    if j < |keys| - 1 { assert keys[j] < keys[|keys| - 1]; }
    if start < j { assert keys[start] < keys[j]; }
    if start < at { assert keys[start] < keys[at]; }
  }

  /** Whatever the links are at the moment, a group that does not contain a link stays
      before it: the cursor never passes a link that is there. */
  lemma NeverSkips(keys: seq<Key>, cursor: Key, k: Key)
    requires keys != [] && Ascending(keys) && k in keys && k !in Select(keys, cursor)
    ensures forall g <- Select(keys, cursor) :: Between(cursor, g, k)
    ensures |Select(keys, cursor)| == GROUP
  {
    var g := Select(keys, cursor);
    var at :| 0 <= at < |keys| && keys[at] == k;
    SelectIsStretch(keys, cursor);
    ReachedBefore(keys, cursor, at, 0);
    forall x <- g ensures Between(cursor, x, k) {
      var i :| 0 <= i < |g| && g[i] == x;
      ReachedBefore(keys, cursor, at, i);
    }
  }

  /** Every two members of the list are in the order of the round that starts at `from`. */
  ghost predicate InRound(from: Key, xs: seq<Key>) {
    forall i, j :: 0 <= i < j < |xs| ==> Between(from, xs[i], xs[j])
  }

  ghost predicate AllBetween(from: Key, xs: seq<Key>, to: Key) {
    forall x <- xs :: Between(from, x, to)
  }

  lemma SelectInRound(keys: seq<Key>, cursor: Key)
    requires keys != [] && Ascending(keys)
    ensures InRound(cursor, Select(keys, cursor))
  {
    SelectIsStretch(keys, cursor);
    var g := Select(keys, cursor);
    var start := StartOf(keys, cursor);
    forall i, j | 0 <= i < j < |g| ensures Between(cursor, g[i], g[j]) {
      RoundOnce(start, i, |keys|);
      RoundOnce(start, j, |keys|);
      TwoInRound(keys, cursor, Round(start, i, |keys|), Round(start, j, |keys|));
    }
  }

  lemma TwoInRound(keys: seq<Key>, cursor: Key, a: nat, b: nat)
    requires keys != [] && Ascending(keys) && a < |keys| && b < |keys| && a != b
    requires var start := StartOf(keys, cursor); if start <= a then a < b || b < start else a < b < start
    ensures Between(cursor, keys[a], keys[b])
  {
    var start := StartOf(keys, cursor);
    if a < b { assert keys[a] < keys[b]; }
    if start < a { assert keys[start] < keys[a]; }
    if a < |keys| - 1 { assert keys[a] < keys[|keys| - 1]; }
    if b < |keys| - 1 { assert keys[b] < keys[|keys| - 1]; }
  }

  /** The way from `from` to `to` that leads over c. */
  lemma Onward(from: Key, c: Key, x: Key, to: Key)
    requires c == from || Between(from, c, to)
    requires Between(c, x, to)
    ensures Between(from, x, to)
    ensures c == from || Between(from, c, x)
  {
  }

  lemma OnwardPair(from: Key, c: Key, x: Key, y: Key, to: Key)
    requires c == from || Between(from, c, to)
    requires Between(c, x, to) && Between(c, y, to) && Between(c, x, y)
    ensures Between(from, x, y)
  {
  }

  lemma Chain(from: Key, x: Key, y: Key, z: Key)
    requires Between(from, x, y) && Between(from, y, z)
    ensures Between(from, x, z)
  {
  }

  /** Where a watcher is that started at `from` while link k waits for its turn. */
  ghost predicate OnTheWay(from: Key, w: Watch, k: Key) {
    && InRound(from, w.done) && AllBetween(from, w.done, k)
    && w.cursor == (if w.done == [] then from else w.done[|w.done| - 1])
    && (w.group != [] ==> InRound(w.cursor, w.group) && |w.group| <= GROUP)
    && (w.group != [] && k !in w.group ==> AllBetween(w.cursor, w.group, k) && |w.group| == GROUP)
  }

  lemma ChosenOnTheWay(from: Key, w: Watch, keys: seq<Key>, k: Key)
    requires OnTheWay(from, w, k) && Ascending(keys) && k in keys
    ensures var g := Chosen(w, keys);
      && g != [] && InRound(w.cursor, g) && |g| <= GROUP
      && (k !in g ==> AllBetween(w.cursor, g, k) && |g| == GROUP)
  {
    if !(w.group != [] && AllIn(w.group, keys)) {
      SelectIsStretch(keys, w.cursor);
      SelectInRound(keys, w.cursor);
      if k !in Select(keys, w.cursor) { NeverSkips(keys, w.cursor, k); }
    }
  }

  lemma DoneGrows(from: Key, done: seq<Key>, cursor: Key, g: seq<Key>, k: Key)
    requires InRound(from, done) && AllBetween(from, done, k)
    requires cursor == if done == [] then from else done[|done| - 1]
    requires InRound(cursor, g) && AllBetween(cursor, g, k)
    ensures InRound(from, done + g) && AllBetween(from, done + g, k)
  {
    var all := done + g;
    if done != [] { assert cursor in done && Between(from, cursor, k); }
    forall x <- g ensures Between(from, x, k) && (done == [] || Between(from, cursor, x)) {
      Onward(from, cursor, x, k);
    }
    forall i, j | 0 <= i < j < |all| ensures Between(from, all[i], all[j]) {
      if i < |done| <= j {
        assert all[j] == g[j - |done|] && all[j] in g;
        if i < |done| - 1 { Chain(from, done[i], cursor, all[j]); }
      } else if i >= |done| {
        assert all[i] == g[i - |done|] && all[j] == g[j - |done|] && all[i] in g && all[j] in g;
        OnwardPair(from, cursor, all[i], all[j], k);
      }
    }
  }

  lemma ScanOnTheWay(from: Key, w: Watch, s: Scan, k: Key)
    requires OnTheWay(from, w, k) && Ascending(s.keys) && k in s.keys && k !in Scanned(w, s).done
    ensures OnTheWay(from, Scanned(w, s), k)
    ensures |Scanned(w, s).done| == |w.done| + if s.finished then GROUP else 0
  {
    var g := Chosen(w, s.keys);
    ChosenOnTheWay(from, w, s.keys, k);
    if s.finished {
      assert k !in g;
      DoneGrows(from, w.done, w.cursor, g, k);
    }
  }

  /** Whatever links come and go and whatever scans stay unfinished: until a link that is
      always there has its turn, no other link has two, and each finished scan hands out
      twenty. */
  lemma {:induction false} OneTurnEach(from: Key, scans: seq<Scan>, k: Key)
    requires Sorted(scans) && forall s <- scans :: k in s.keys
    requires k !in Play(Watch([], from, []), scans).done
    ensures var w := Play(Watch([], from, []), scans);
      OnTheWay(from, w, k) && |w.done| == GROUP * Finished(scans)
  {
    if scans != [] {
      var front, last := scans[..|scans| - 1], scans[|scans| - 1];
      assert last in scans;
      OneTurnEach(from, front, k);
      ScanOnTheWay(from, Play(Watch([], from, []), front), last, k);
    }
  }

  lemma {:induction false} DistinctFit(xs: seq<Key>, all: set<Key>)
    requires forall x <- xs :: x in all
    requires forall i, j :: 0 <= i < j < |xs| ==> xs[i] != xs[j]
    ensures |xs| <= |all|
  {
    if xs != [] {
      var last := xs[|xs| - 1];
      DistinctFit(xs[..|xs| - 1], all - {last});
    }
  }

  lemma {:induction false} DoneWereFound(from: Key, scans: seq<Scan>, all: set<Key>)
    requires Sorted(scans) && forall s <- scans, x <- s.keys :: x in all
    ensures var w := Play(Watch([], from, []), scans);
      (forall x <- w.done :: x in all) && (forall x <- w.group :: x in all)
  {
    if scans != [] {
      var front, last := scans[..|scans| - 1], scans[|scans| - 1];
      assert last in scans;
      DoneWereFound(from, front, all);
      if last.keys != [] { SelectedAreThere(last.keys, Play(Watch([], from, []), front).cursor); }
    }
  }

  /** So its turn comes: with n links ever seen, it is in a finished group before n / 20
      scans were finished without it. */
  lemma TurnComes(from: Key, scans: seq<Scan>, k: Key, all: set<Key>)
    requires Sorted(scans) && (forall s <- scans :: k in s.keys)
    requires k in all && forall s <- scans, x <- s.keys :: x in all
    requires GROUP * Finished(scans) >= |all|
    ensures k in Play(Watch([], from, []), scans).done
  {
    var w := Play(Watch([], from, []), scans);
    if k !in w.done {
      OneTurnEach(from, scans, k);
      DoneWereFound(from, scans, all);
      forall i, j | 0 <= i < j < |w.done| ensures w.done[i] != w.done[j] {
        assert Between(from, w.done[i], w.done[j]);
      }
      DistinctFit(w.done, all - {k});
    }
  }
}

/** Generated session names: the base name, or the base name with the first free number.

    The search tries the base, then the numbers from one on, and ends within as many
    numbers as there are names, because the numbered names are all different. The number
    is written in decimal digits. */
module GeneratedNames {

  function Digit(n: nat): char
    requires n < 10
  {
    "0123456789"[n]
  }

  function Decimal(n: nat): string {
    if n < 10 then [Digit(n)] else Decimal(n / 10) + [Digit(n % 10)]
  }

  function Value(s: string): nat {
    if s == "" then 0
    else Value(s[..|s| - 1]) * 10 + if '0' <= s[|s| - 1] <= '9' then s[|s| - 1] as nat - '0' as nat else 0
  }

  lemma {:induction false} DecimalReadsBack(n: nat)
    ensures Value(Decimal(n)) == n
  {
    if n >= 10 {
      DecimalReadsBack(n / 10);
      assert Decimal(n)[..|Decimal(n)| - 1] == Decimal(n / 10);
    } else {
      assert Decimal(n)[..0] == "";
    }
  }

  function Candidate(base: string, i: nat): string {
    base + "_" + Decimal(i)
  }

  function Candidates(base: string, k: nat): set<string> {
    if k == 0 then {base} else Candidates(base, k - 1) + {Candidate(base, k)}
  }

  lemma CandidatesDiffer(base: string, i: nat, j: nat)
    requires Candidate(base, i) == Candidate(base, j)
    ensures i == j
  {
    var n := |base| + 1;
    assert Candidate(base, i)[n..] == Decimal(i) && Candidate(base, j)[n..] == Decimal(j);
    DecimalReadsBack(i);
    DecimalReadsBack(j);
  }

  lemma {:induction false} CandidatesHold(base: string, k: nat, name: string)
    ensures name in Candidates(base, k) <==> name == base || exists i :: 1 <= i <= k && name == Candidate(base, i)
  {
    if k > 0 { CandidatesHold(base, k - 1, name); }
  }

  /** The pigeonhole behind the search: `k` numbered names and the bare one are all different. */
  lemma {:induction false} CandidatesCount(base: string, k: nat)
    ensures |Candidates(base, k)| == k + 1
  {
    if k > 0 {
      CandidatesCount(base, k - 1);
      CandidatesHold(base, k - 1, Candidate(base, k));
      assert Candidate(base, k) !in Candidates(base, k - 1) by {
        forall i | 1 <= i <= k - 1 ensures Candidate(base, i) != Candidate(base, k) {
          if Candidate(base, i) == Candidate(base, k) { CandidatesDiffer(base, i, k); }
        }
      }
    }
  }

  lemma SubsetIsSmaller(a: set<string>, b: set<string>)
    requires a <= b
    ensures |a| <= |b|
  {
    assert b == a + (b - a);
  }

  predicate TakenBelow(base: string, i: nat, names: set<string>) {
    forall k :: 1 <= k < i ==> Candidate(base, k) in names
  }

  lemma NoMoreThanThereAre(base: string, i: nat, names: set<string>)
    requires i > 0 && base in names && TakenBelow(base, i, names)
    ensures i <= |names|
  {
    forall name | name in Candidates(base, i - 1) ensures name in names {
      CandidatesHold(base, i - 1, name);
    }
    CandidatesCount(base, i - 1);
    SubsetIsSmaller(Candidates(base, i - 1), names);
  }

  /** nextAvailableGeneratedName: the name is free, and the first free one; the search ends
      after at most as many numbers as there are names. */
  method NextAvailableGeneratedName(base: string, names: seq<string>) returns (name: string, number: nat)
    ensures name !in names
    ensures name == if number == 0 then base else Candidate(base, number)
    ensures number > 0 ==> base in names
    ensures TakenBelow(base, number, set n | n in names)
    ensures number <= |set n | n in names|
  {
    var existing := set n | n in names;
    if base !in existing { return base, 0; }
    var i := 1;
    while true
      invariant i >= 1 && TakenBelow(base, i, existing)
      decreases |existing| - i
    {
      NoMoreThanThereAre(base, i, existing);
      var candidate := Candidate(base, i);
      if candidate !in existing { return candidate, i; }
      i := i + 1;
    }
  }
}

/** Extinction and rescue probabilities of an ensemble of raw trajectories. */
module Statistics {
  import opened Pdmp
  import opened Seqs

  /** Every trajectory has at least one recorded copy number to look at. */
  predicate AllNonEmpty(trs: seq<Trajectory>) {
    forall i :: 0 <= i < |trs| ==> |trs[i].P| > 0
  }

  function FinalCount(tr: Trajectory): int
    requires |tr.P| > 0
  {
    tr.P[|tr.P| - 1]
  }

  /** 1 when the last recorded copy number is 0, else 0. */
  function IsExtinct(tr: Trajectory): (e: int)
    requires |tr.P| > 0
    ensures e == 0 || e == 1
    ensures e == 1 <==> FinalCount(tr) == 0
  {
    if tr.P[|tr.P| - 1] == 0 then 1 else 0
  }

  /** The number of extinct trajectories, summed in list order. */
  function CountExtinct(trs: seq<Trajectory>): (n: nat)
    requires AllNonEmpty(trs)
    ensures n <= |trs|
  {
    if trs == [] then 0
    else CountExtinct(trs[..|trs| - 1]) + IsExtinct(trs[|trs| - 1])
  }

  /** I_ext / N: the fraction of trajectories whose final copy number is 0. */
  function ExtinctionProbability(trs: seq<Trajectory>): (pe: real)
    requires |trs| > 0 && AllNonEmpty(trs)
    ensures 0.0 <= pe <= 1.0
    ensures pe * (|trs| as real) == CountExtinct(trs) as real
  {
    var n := |trs| as real;
    var pe := (CountExtinct(trs) as real) / n;
    assert pe * n == CountExtinct(trs) as real;
    assert (pe - 1.0) * n == CountExtinct(trs) as real - n <= 0.0;
    assert pe <= 1.0;
    pe
  }

  /** 1 - extinction probability: the fraction of trajectories that keep a plasmid. */
  function RescueProbability(trs: seq<Trajectory>): (pr: real)
    requires |trs| > 0 && AllNonEmpty(trs)
    ensures 0.0 <= pr <= 1.0
    ensures pr + ExtinctionProbability(trs) == 1.0
  {
    1.0 - ExtinctionProbability(trs)
  }

  /** Counting extinct runs: every run extinct gives N, none gives 0. */
  lemma {:induction false} CountExtinctBounds(trs: seq<Trajectory>)
    requires AllNonEmpty(trs)
    ensures (forall i :: 0 <= i < |trs| ==> FinalCount(trs[i]) == 0) ==> CountExtinct(trs) == |trs|
    ensures (forall i :: 0 <= i < |trs| ==> FinalCount(trs[i]) != 0) ==> CountExtinct(trs) == 0
  {
    if trs != [] {
      CountExtinctBounds(trs[..|trs| - 1]);
    }
  }

  /** All runs extinct gives probability 1, none extinct gives 0. */
  lemma ExtinctionProbabilityExtremes(trs: seq<Trajectory>)
    requires |trs| > 0 && AllNonEmpty(trs)
    ensures (forall i :: 0 <= i < |trs| ==> FinalCount(trs[i]) == 0) ==> ExtinctionProbability(trs) == 1.0
    ensures (forall i :: 0 <= i < |trs| ==> FinalCount(trs[i]) != 0) ==> ExtinctionProbability(trs) == 0.0
  {
    CountExtinctBounds(trs);
  }

  /** The count over a concatenation is the sum of the counts of its parts. */
  lemma {:induction false} CountExtinctAppend(a: seq<Trajectory>, b: seq<Trajectory>)
    requires AllNonEmpty(a) && AllNonEmpty(b)
    ensures AllNonEmpty(a + b)
    ensures CountExtinct(a + b) == CountExtinct(a) + CountExtinct(b)
    decreases |b|
  {
    assert forall j :: 0 <= j < |a + b| ==> (a + b)[j] == if j < |a| then a[j] else b[j - |a|];
    if b == [] {
      assert a + b == a;
    } else {
      var init := b[..|b| - 1];
      assert AllNonEmpty(init);
      CountExtinctAppend(a, init);
      assert (a + b)[..|a + b| - 1] == a + init;
      assert (a + b)[|a + b| - 1] == b[|b| - 1];
    }
  }

  /** Counting around one run: its indicator plus the count of the others. */
  lemma CountExtinctSplit(left: seq<Trajectory>, x: Trajectory, right: seq<Trajectory>)
    requires AllNonEmpty(left) && |x.P| > 0 && AllNonEmpty(right)
    ensures AllNonEmpty(left + [x] + right) && AllNonEmpty(left + right)
    ensures CountExtinct(left + [x] + right) == CountExtinct(left + right) + IsExtinct(x)
  {
    assert CountExtinct([x]) == IsExtinct(x) by { assert [x][..0] == []; }
    CountExtinctAppend(left, [x]);
    CountExtinctAppend(left + [x], right);
    CountExtinctAppend(left, right);
  }

  /** Taking one run out of the list removes exactly its own indicator from the count. */
  lemma CountExtinctRemove(trs: seq<Trajectory>, i: nat)
    requires AllNonEmpty(trs) && i < |trs|
    ensures AllNonEmpty(trs[..i] + trs[i + 1..])
    ensures CountExtinct(trs) == CountExtinct(trs[..i] + trs[i + 1..]) + IsExtinct(trs[i])
  {
    SplitAround(trs, i);
    CountExtinctSplit(trs[..i], trs[i], trs[i + 1..]);
  }

  /** The count does not depend on the order of the runs. */
  lemma {:induction false} CountExtinctPermutation(a: seq<Trajectory>, b: seq<Trajectory>)
    requires AllNonEmpty(a) && AllNonEmpty(b)
    requires multiset(a) == multiset(b)
    ensures CountExtinct(a) == CountExtinct(b)
    decreases |a|
  {
    if a != [] {
      LastOccurs(a, b);
      var i :| 0 <= i < |b| && b[i] == a[|a| - 1];
      MultisetRemove(a, b, i);
      CountExtinctRemove(b, i);
      CountExtinctPermutation(a[..|a| - 1], b[..i] + b[i + 1..]);
    } else {
      assert |b| == |multiset(b)| == 0;
    }
  }

  /** Reordering the ensemble leaves the extinction probability unchanged. */
  lemma ExtinctionProbabilityPermutation(a: seq<Trajectory>, b: seq<Trajectory>)
    requires |a| > 0 && AllNonEmpty(a) && AllNonEmpty(b)
    requires multiset(a) == multiset(b)
    ensures |b| == |a|
    ensures ExtinctionProbability(a) == ExtinctionProbability(b)
  {
    assert |a| == |multiset(a)| == |multiset(b)| == |b|;
    CountExtinctPermutation(a, b);
  }
}

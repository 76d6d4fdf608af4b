/** The trainer's three loops: the split, the epoch averages and the choice of the checkpoint. */
module Training {
  import opened Domain

  // ---- the split ----------------------------------------------------------

  function Range(n: nat): (r: seq<nat>)
    ensures |r| == n
  {
    seq(n, i => i)
  }

  /** The index a Python slice bound denotes in a list of the given length. */
  function SliceBound(length: nat, n: int): (k: nat)
    ensures k <= length
  {
    if n < 0 then (if length + n < 0 then 0 else length + n)
    else if n > length then length
    else n
  }

  datatype Split = Split(train: seq<nat>, val: seq<nat>)

  /** Together the two parts hold every index once. */
  ghost predicate IsPartition(total: nat, s: Split) {
    multiset(s.train) + multiset(s.val) == multiset(Range(total))
  }

  lemma {:induction false} RangeCounts(n: nat, x: nat)
    ensures multiset(Range(n))[x] == if x < n then 1 else 0
  {
    if n > 0 {
      assert Range(n) == Range(n - 1) + [n - 1];
      RangeCounts(n - 1, x);
    }
  }

  lemma RepeatCountsTwice(s: seq<nat>, i: nat, j: nat)
    requires i < j < |s| && s[i] == s[j]
    ensures multiset(s)[s[i]] >= 2
  {
    assert s == s[..j] + [s[j]] + s[j + 1..];
    assert s[i] in s[..j];
    assert multiset(s[..j])[s[i]] >= 1;
  }

  predicate Distinct(s: seq<nat>) {
    forall i, j | 0 <= i < j < |s| :: s[i] != s[j]
  }

  lemma OnceMeansDistinct(s: seq<nat>)
    requires forall x: nat :: multiset(s)[x] <= 1
    ensures Distinct(s)
  {
    forall i, j | 0 <= i < j < |s| ensures s[i] != s[j] {
      if s[i] == s[j] { RepeatCountsTwice(s, i, j); }
    }
  }

  lemma PartsCountOnce(total: nat, s: Split, x: nat)
    requires IsPartition(total, s)
    ensures multiset(s.train)[x] + multiset(s.val)[x] == if x < total then 1 else 0
  {
    RangeCounts(total, x);
    assert multiset(Range(total))[x] == multiset(s.train)[x] + multiset(s.val)[x];
  }

  /** What a partition means element by element: disjoint, complete, and without repetitions. */
  lemma PartitionCovers(total: nat, s: Split, x: nat)
    requires IsPartition(total, s)
    ensures x in s.train || x in s.val <==> x < total
    ensures !(x in s.train && x in s.val)
    ensures Distinct(s.train) && Distinct(s.val)
  {
    PartsCountOnce(total, s, x);
    assert x in s.train <==> multiset(s.train)[x] > 0;
    assert x in s.val <==> multiset(s.val)[x] > 0;
    forall y: nat ensures multiset(s.train)[y] <= 1 && multiset(s.val)[y] <= 1 {
      PartsCountOnce(total, s, y);
    }
    OnceMeansDistinct(s.train);
    OnceMeansDistinct(s.val);
  }

  /** The draws random.shuffle may make on a list of length n: one index per position, from the part
      not yet passed. */
  predicate IsDraw(draws: seq<nat>, n: nat) {
    |draws| == n && forall i | 0 <= i < n :: draws[i] <= i
  }

  /** Positions below k still to be swapped, from the back. */
  function Shuffled(s: seq<nat>, draws: seq<nat>, k: nat): (r: seq<nat>)
    requires k <= |s| && IsDraw(draws, |s|)
    ensures |r| == |s|
    decreases k
  {
    if k == 0 then s
    else Shuffled(s[k - 1 := s[draws[k - 1]]][draws[k - 1] := s[k - 1]], draws, k - 1)
  }

  lemma SwapPermutes(s: seq<nat>, i: nat, j: nat)
    requires j <= i < |s|
    ensures multiset(s[i := s[j]][j := s[i]]) == multiset(s)
  {
  }

  lemma {:induction false} ShuffledPermutes(s: seq<nat>, draws: seq<nat>, k: nat)
    requires k <= |s| && IsDraw(draws, |s|)
    ensures multiset(Shuffled(s, draws, k)) == multiset(s)
    decreases k
  {
    if k > 0 {
      SwapPermutes(s, k - 1, draws[k - 1]);
      ShuffledPermutes(s[k - 1 := s[draws[k - 1]]][draws[k - 1] := s[k - 1]], draws, k - 1);
    }
  }

  /** random.shuffle: swaps from the back, each partner drawn from the part not yet passed. */
  method Shuffle(indices: array<nat>, draws: seq<nat>)
    requires IsDraw(draws, indices.Length)
    modifies indices
    ensures indices[..] == Shuffled(old(indices[..]), draws, indices.Length)
    ensures multiset(indices[..]) == multiset(old(indices[..]))
  {
    ShuffledPermutes(indices[..], draws, indices.Length);
    var i := indices.Length;
    while i > 0
      invariant 0 <= i <= indices.Length
      invariant Shuffled(indices[..], draws, i) == Shuffled(old(indices[..]), draws, indices.Length)
    {
      ghost var s := indices[..];
      i := i - 1;
      var j := draws[i];
      indices[i], indices[j] := indices[j], indices[i];
      assert indices[..] == s[i := s[j]][j := s[i]];
    }
  }

  /** Wherever the wanted element is, it is in the part not yet passed. */
  lemma Locate(s: seq<nat>, p: seq<nat>, k: nat) returns (j: nat)
    requires 0 < k <= |s| == |p| && multiset(s[..k]) == multiset(p[..k])
    ensures j < k && s[j] == p[k - 1]
  {
    assert p[k - 1] in multiset(p[..k]);
    assert p[k - 1] in s[..k];
    j :| 0 <= j < k && s[..k][j] == p[k - 1];
  }

  lemma WithoutLast(a: seq<nat>, b: seq<nat>)
    requires a != [] && |a| == |b| && a[|a| - 1] == b[|a| - 1] && multiset(a) == multiset(b)
    ensures multiset(a[..|a| - 1]) == multiset(b[..|a| - 1])
  {
    var n := |a| - 1;
    assert a == a[..n] + [a[n]] && b == b[..n] + [a[n]];
    assert multiset(a[..n]) == multiset(a) - multiset{a[n]};
    assert multiset(b[..n]) == multiset(b) - multiset{a[n]};
  }

  lemma SwapOfPrefix(s: seq<nat>, k: nat, i: nat, j: nat)
    requires j <= i < k <= |s|
    ensures s[i := s[j]][j := s[i]][..k] == s[..k][i := s[j]][j := s[i]]
    ensures s[i := s[j]][j := s[i]][k..] == s[k..]
  {
  }

  lemma SwapKeepsRest(s: seq<nat>, p: seq<nat>, k: nat, j: nat)
    requires 0 < k <= |s| == |p| && s[k..] == p[k..] && multiset(s[..k]) == multiset(p[..k])
    requires j < k && s[j] == p[k - 1]
    ensures var t := s[k - 1 := s[j]][j := s[k - 1]];
            t[k - 1..] == p[k - 1..] && multiset(t[..k - 1]) == multiset(p[..k - 1])
  {
    var t := s[k - 1 := s[j]][j := s[k - 1]];
    SwapOfPrefix(s, k, k - 1, j);
    SwapPermutes(s[..k], k - 1, j);
    WithoutLast(t[..k], p[..k]);
    assert t[..k][..k - 1] == t[..k - 1] && p[..k][..k - 1] == p[..k - 1];
    assert t[k - 1..] == [t[k - 1]] + t[k..] && p[k - 1..] == [p[k - 1]] + p[k..];
  }

  /** Draws that bring the positions below k into the order of p. */
  lemma {:induction false} DrawsFor(s: seq<nat>, p: seq<nat>, k: nat) returns (draws: seq<nat>)
    requires k <= |s| == |p| && s[k..] == p[k..] && multiset(s[..k]) == multiset(p[..k])
    ensures IsDraw(draws, |s|) && Shuffled(s, draws, k) == p
    decreases k
  {
    if k == 0 {
      draws := seq(|s|, i => 0);
      assert s[0..] == s && p[0..] == p;
    } else {
      var j := Locate(s, p, k);
      SwapKeepsRest(s, p, k, j);
      var t := s[k - 1 := s[j]][j := s[k - 1]];
      var rest := DrawsFor(t, p, k - 1);
      draws := rest[k - 1 := j];
      SameDrawsBelow(t, rest, draws, k - 1);
    }
  }

  lemma {:induction false} SameDrawsBelow(s: seq<nat>, a: seq<nat>, b: seq<nat>, k: nat)
    requires k <= |s| && IsDraw(a, |s|) && IsDraw(b, |s|) && forall i | 0 <= i < k :: a[i] == b[i]
    ensures Shuffled(s, a, k) == Shuffled(s, b, k)
    decreases k
  {
    if k > 0 {
      SameDrawsBelow(s[k - 1 := s[a[k - 1]]][a[k - 1] := s[k - 1]], a, b, k - 1);
    }
  }

  /** The shuffle leaves no order out: every permutation of the indices is drawn by some draws. */
  lemma EveryOrderCanBeDrawn(total: nat, p: seq<nat>) returns (draws: seq<nat>)
    requires multiset(p) == multiset(Range(total))
    ensures IsDraw(draws, total) && Shuffled(Range(total), draws, total) == p
  {
    var s := Range(total);
    assert |multiset(p)| == |p| && |multiset(s)| == |s|;
    assert s[..total] == s && p[..total] == p && s[total..] == p[total..];
    draws := DrawsFor(s, p, total);
  }

  /** build_loaders' split. None is the SystemExit for an empty data set or an empty part. A split is
      accepted exactly when n_val, positive or negative, is a proper part of the data; the validation
      part is then the front of the shuffled indices and the training part their rest. */
  method BuildSplit(total: nat, draws: seq<nat>, nVal: int) returns (r: Option<Split>)
    requires IsDraw(draws, total)
    ensures r.Some? <==> 0 < nVal + total < 2 * total && nVal != 0
    ensures r.Some? ==> IsPartition(total, r.value)
    ensures r.Some? ==> r.value.train != [] && |r.value.val| == if nVal > 0 then nVal else total + nVal
    ensures r.Some? ==> r.value.val + r.value.train == Shuffled(Range(total), draws, total)
  {
    if total == 0 {
      return None;
    }
    var indices := new nat[total](i => i);
    assert indices[..] == Range(total);
    Shuffle(indices, draws);
    var cut := SliceBound(total, nVal);
    var val, train := indices[..cut], indices[cut..];
    if train == [] || val == [] {
      return None;
    }
    assert indices[..] == val + train;
    return Some(Split(train, val));
  }

  // ---- one validation epoch -------------------------------------------------

  /** One validation sample: its loss, and whether the arg-max was the label. */
  datatype Sample = Sample(loss: real, correct: bool)

  function LossSum(xs: seq<Sample>): real {
    if xs == [] then 0.0 else LossSum(xs[..|xs| - 1]) + xs[|xs| - 1].loss
  }

  function Correct(xs: seq<Sample>): (n: nat)
    ensures n <= |xs|
  {
    if xs == [] then 0 else Correct(xs[..|xs| - 1]) + if xs[|xs| - 1].correct then 1 else 0
  }

  /** CrossEntropyLoss with its default reduction: the mean over the batch. */
  function BatchLoss(batch: seq<Sample>): real
    requires batch != []
  {
    LossSum(batch) / |batch| as real
  }

  predicate NonEmpty(batches: seq<seq<Sample>>) {
    forall i | 0 <= i < |batches| :: batches[i] != []
  }

  function Flat(batches: seq<seq<Sample>>): seq<Sample> {
    if batches == [] then [] else Flat(batches[..|batches| - 1]) + batches[|batches| - 1]
  }

  lemma {:induction false} SumsSplit(a: seq<Sample>, b: seq<Sample>)
    ensures LossSum(a + b) == LossSum(a) + LossSum(b)
    ensures Correct(a + b) == Correct(a) + Correct(b)
  {
    if b == [] {
      assert a + b == a;
    } else {
      assert (a + b)[..|a + b| - 1] == a + b[..|b| - 1];
      SumsSplit(a, b[..|b| - 1]);
    }
  }

  /** Multiplying the mean back by the size gives what the batch adds per sample. */
  lemma MeanTimesSize(batch: seq<Sample>)
    requires batch != []
    ensures BatchLoss(batch) * |batch| as real == LossSum(batch)
  {
  }

  /** The per-sample mean loss and the fraction correct. */
  function Averages(xs: seq<Sample>): (real, real)
    requires xs != []
  {
    (LossSum(xs) / |xs| as real, Correct(xs) as real / |xs| as real)
  }

  /** The positions of the samples whose arg-max was the label. */
  function Hits(xs: seq<Sample>): set<nat> {
    set i: nat | i < |xs| && xs[i].correct
  }

  lemma {:induction false} CorrectCountsHits(xs: seq<Sample>)
    ensures Correct(xs) == |Hits(xs)|
  {
    if xs == [] {
      assert Hits(xs) == {};
    } else {
      var n := |xs| - 1;
      CorrectCountsHits(xs[..n]);
      assert Hits(xs) == Hits(xs[..n]) + if xs[n].correct then {n} else {};
    }
  }

  predicate LossesWithin(xs: seq<Sample>, lo: real, hi: real) {
    forall i | 0 <= i < |xs| :: lo <= xs[i].loss <= hi
  }

  lemma {:induction false} SumWithin(xs: seq<Sample>, lo: real, hi: real)
    requires LossesWithin(xs, lo, hi)
    ensures lo * |xs| as real <= LossSum(xs) <= hi * |xs| as real
  {
    if xs != [] {
      var n := |xs| - 1;
      SumWithin(xs[..n], lo, hi);
      assert lo * |xs| as real == lo * n as real + lo && hi * |xs| as real == hi * n as real + hi;
    }
  }

  lemma Quotient(sum: real, n: real, lo: real, hi: real)
    requires n > 0.0 && lo * n <= sum <= hi * n
    ensures lo <= sum / n <= hi && sum / n * n == sum
  {
  }

  /** The accuracy is the fraction of hits, and the mean lies where the losses lie. */
  lemma AveragesMean(xs: seq<Sample>)
    requires xs != []
    ensures Averages(xs).1 * |xs| as real == |Hits(xs)| as real
    ensures forall lo, hi :: LossesWithin(xs, lo, hi) ==> lo <= Averages(xs).0 <= hi
  {
    CorrectCountsHits(xs);
    forall lo, hi | LossesWithin(xs, lo, hi) ensures lo <= Averages(xs).0 <= hi {
      SumWithin(xs, lo, hi);
      Quotient(LossSum(xs), |xs| as real, lo, hi);
    }
  }

  function Shifted(xs: seq<Sample>, c: real): (ys: seq<Sample>)
    ensures |ys| == |xs|
  {
    seq(|xs|, i requires 0 <= i < |xs| => xs[i].(loss := xs[i].loss + c))
  }

  lemma {:induction false} SumShifts(xs: seq<Sample>, c: real)
    ensures LossSum(Shifted(xs, c)) == LossSum(xs) + c * |xs| as real
  {
    if xs != [] {
      var n := |xs| - 1;
      assert Shifted(xs, c)[..n] == Shifted(xs[..n], c);
      SumShifts(xs[..n], c);
      assert c * |xs| as real == c * n as real + c;
    }
  }

  /** Losses that all grow by c move the mean by c, ... */
  lemma MeanShifts(xs: seq<Sample>, c: real)
    requires xs != []
    ensures Averages(Shifted(xs, c)).0 == Averages(xs).0 + c
  {
    hide LossSum, Correct, Shifted;
    SumShifts(xs, c);
    QuotientAdds(LossSum(xs), c, |xs| as real);
  }

  lemma OneLossCounts(xs: seq<Sample>, i: nat, c: real)
    requires i < |xs|
    ensures LossSum(xs[i := xs[i].(loss := xs[i].loss + c)]) == LossSum(xs) + c
  {
    hide LossSum, Correct;
    var ys := xs[i := xs[i].(loss := xs[i].loss + c)];
    WithoutSums(xs, i);
    WithoutSums(ys, i);
    assert Without(ys, i) == Without(xs, i);
  }

  /** ... and one loss that grows by c moves it by c / n. */
  lemma EachLossWeighsTheSame(xs: seq<Sample>, i: nat, c: real)
    requires i < |xs|
    ensures Averages(xs[i := xs[i].(loss := xs[i].loss + c)]).0 == Averages(xs).0 + c / |xs| as real
  {
    hide LossSum, Correct;
    OneLossCounts(xs, i, c);
    QuotientAdds(LossSum(xs), c, |xs| as real);
  }

  lemma QuotientAdds(sum: real, c: real, n: real)
    requires n > 0.0
    ensures (sum + c) / n == sum / n + c / n && (sum + c * n) / n == sum / n + c
  {
  }

  /** What one validation epoch answers; None is the ZeroDivisionError of an empty loader. */
  function EpochResult(batches: seq<seq<Sample>>): Option<(real, real)> {
    if Flat(batches) == [] then None else Some(Averages(Flat(batches)))
  }

  lemma NothingYet(batches: seq<seq<Sample>>)
    ensures Flat(batches[..0]) == [] && LossSum(Flat(batches[..0])) == 0.0 && Correct(Flat(batches[..0])) == 0
  {
  }

  lemma OneMoreBatch(batches: seq<seq<Sample>>, i: nat)
    requires i < |batches|
    ensures Flat(batches[..i + 1]) == Flat(batches[..i]) + batches[i]
    ensures LossSum(Flat(batches[..i + 1])) == LossSum(Flat(batches[..i])) + LossSum(batches[i])
    ensures Correct(Flat(batches[..i + 1])) == Correct(Flat(batches[..i])) + Correct(batches[i])
  {
    assert batches[..i + 1][..i] == batches[..i];
    SumsSplit(Flat(batches[..i]), batches[i]);
  }

  lemma EpochOfSums(batches: seq<seq<Sample>>)
    ensures var n := |Flat(batches)|;
            EpochResult(batches)
            == if n == 0 then None
               else Some((LossSum(Flat(batches)) / n as real, Correct(Flat(batches)) as real / n as real))
  {
  }

  lemma EpochMeans(batches: seq<seq<Sample>>)
    ensures var r := EpochResult(batches);
            && (r.None? <==> Flat(batches) == [])
            && (r.Some? ==> r.value.1 * |Flat(batches)| as real == |Hits(Flat(batches))| as real)
            && (r.Some? ==> forall lo, hi :: LossesWithin(Flat(batches), lo, hi) ==> lo <= r.value.0 <= hi)
  {
    hide Averages, LossesWithin, Hits, Flat;
    if Flat(batches) != [] { AveragesMean(Flat(batches)); }
  }

  /** run_epoch without an optimizer. However the samples are cut into batches, it returns their
      per-sample averages. */
  method RunEpoch(batches: seq<seq<Sample>>) returns (r: Option<(real, real)>)
    requires NonEmpty(batches)
    ensures r == EpochResult(batches)
    ensures r.None? <==> Flat(batches) == []
    ensures r.Some? ==> r.value.1 * |Flat(batches)| as real == |Hits(Flat(batches))| as real
    ensures r.Some? ==> forall lo, hi :: LossesWithin(Flat(batches), lo, hi) ==> lo <= r.value.0 <= hi
  {
    hide LossSum, Correct, Flat, Averages, Hits, LossesWithin, BatchLoss;
    NothingYet(batches);
    var runningLoss, correct, seen := 0.0, 0, 0;
    for i := 0 to |batches|
      invariant runningLoss == LossSum(Flat(batches[..i]))
      invariant correct == Correct(Flat(batches[..i]))
      invariant seen == |Flat(batches[..i])|
    {
      var batch := batches[i];
      var loss := BatchLoss(batch);
      MeanTimesSize(batch);
      OneMoreBatch(batches, i);
      runningLoss := runningLoss + loss * |batch| as real;
      correct := correct + Correct(batch);
      seen := seen + |batch|;
    }
    assert batches[..|batches|] == batches;
    r := if seen == 0 then None else Some((runningLoss / seen as real, correct as real / seen as real));
    EpochOfSums(batches);
    EpochMeans(batches);
  }

  function Without(xs: seq<Sample>, i: nat): (rest: seq<Sample>)
    requires i < |xs|
    ensures |rest| == |xs| - 1
  {
    xs[..i] + xs[i + 1..]
  }

  lemma CutOpen(xs: seq<Sample>, i: nat)
    requires i < |xs|
    ensures xs == xs[..i] + [xs[i]] + xs[i + 1..]
  {
  }

  lemma ThreePieces(a: seq<Sample>, x: Sample, b: seq<Sample>)
    ensures LossSum(a + [x] + b) == LossSum(a + b) + x.loss
    ensures Correct(a + [x] + b) == Correct(a + b) + if x.correct then 1 else 0
  {
    SumsSplit(a + [x], b);
    SumsSplit(a, b);
    assert (a + [x])[..|a|] == a;
  }

  /** Taking one sample out takes out its loss and its hit, ... */
  lemma WithoutSums(xs: seq<Sample>, i: nat)
    requires i < |xs|
    ensures LossSum(xs) == LossSum(Without(xs, i)) + xs[i].loss
    ensures Correct(xs) == Correct(Without(xs, i)) + (if xs[i].correct then 1 else 0)
  {
    hide LossSum, Correct;
    CutOpen(xs, i);
    ThreePieces(xs[..i], xs[i], xs[i + 1..]);
  }

  /** ... and one occurrence. */
  lemma WithoutOccurrence(xs: seq<Sample>, i: nat)
    requires i < |xs|
    ensures multiset(Without(xs, i)) == multiset(xs) - multiset{xs[i]}
  {
    CutOpen(xs, i);
  }

  /** The sums depend on which samples there are, not on their order. */
  lemma {:induction false} SumsIgnoreOrder(xs: seq<Sample>, ys: seq<Sample>)
    requires multiset(xs) == multiset(ys)
    ensures |xs| == |ys| && LossSum(xs) == LossSum(ys) && Correct(xs) == Correct(ys)
    decreases |xs|
  {
    assert |multiset(xs)| == |xs| && |multiset(ys)| == |ys|;
    if xs != [] {
      assert xs[0] in multiset(xs);
      var i :| 0 <= i < |ys| && ys[i] == xs[0];
      hide Without;
      WithoutSums(xs, 0);
      WithoutSums(ys, i);
      WithoutOccurrence(xs, 0);
      WithoutOccurrence(ys, i);
      SumsIgnoreOrder(Without(xs, 0), Without(ys, i));
    }
  }

  lemma IsFraction(c: real, n: real)
    requires 0.0 <= c <= n && n > 0.0
    ensures 0.0 <= c / n <= 1.0
  {
  }

  /** Neither the batch size nor the order of the samples shows in the returned averages, and an
      accuracy is a fraction. */
  lemma BatchSizeDoesNotMatter(a: seq<seq<Sample>>, b: seq<seq<Sample>>)
    requires multiset(Flat(a)) == multiset(Flat(b))
    ensures EpochResult(a) == EpochResult(b)
    ensures EpochResult(a).Some? ==> 0.0 <= EpochResult(a).value.1 <= 1.0
  {
    SumsIgnoreOrder(Flat(a), Flat(b));
    if Flat(a) != [] {
      IsFraction(Correct(Flat(a)) as real, |Flat(a)| as real);
    }
  }

  // ---- the best checkpoint --------------------------------------------------

  /** What one epoch leaves: the weights and the two validation numbers. */
  datatype Epoch<M> = Epoch(model: M, acc: real, loss: real)

  datatype Checkpoint<M> = Checkpoint(model: M, epoch: nat, acc: real, loss: real)

  predicate Better<M>(a: Epoch<M>, b: Epoch<M>) {
    a.acc > b.acc || (a.acc == b.acc && a.loss < b.loss)
  }

  /** Nothing beats epoch k, and it beats everything before it. */
  predicate EarliestBest<M>(epochs: seq<Epoch<M>>, k: nat) {
    && k < |epochs|
    && (forall j | 0 <= j < |epochs| :: !Better(epochs[j], epochs[k]))
    && (forall j | 0 <= j < k :: Better(epochs[k], epochs[j]))
  }

  lemma EarliestBestIsUnique<M>(epochs: seq<Epoch<M>>, k: nat, l: nat)
    requires EarliestBest(epochs, k) && EarliestBest(epochs, l)
    ensures k == l
  {
    var a, b := epochs[k], epochs[l];
    assert k < l ==> Better(b, a);
    assert l < k ==> Better(a, b);
  }

  /** The epoch loop of main. best_loss None is float("inf"); epochs count from 1. The file holds the
      earliest best epoch, and nothing only if no accuracy reached the initial -1. */
  method KeepBest<M>(epochs: seq<Epoch<M>>)
    returns (saved: Option<Checkpoint<M>>, bestAcc: real, bestLoss: Option<real>, bestEpoch: nat)
    ensures saved.None? <==> forall e | e in epochs :: e.acc < -1.0
    ensures saved.None? ==> bestEpoch == 0
    ensures saved.Some? ==>
              && bestEpoch > 0 && EarliestBest(epochs, bestEpoch - 1)
              && saved.value == Checkpoint(epochs[bestEpoch - 1].model, bestEpoch, bestAcc,
                                           epochs[bestEpoch - 1].loss)
              && bestAcc == epochs[bestEpoch - 1].acc && bestLoss == Some(epochs[bestEpoch - 1].loss)
    ensures saved.Some? ==> forall j | 0 <= j < |epochs| ::
              && epochs[j].acc <= saved.value.acc
              && (epochs[j].acc == saved.value.acc ==> epochs[j].loss >= saved.value.loss)
              && (epochs[j].acc == saved.value.acc && epochs[j].loss == saved.value.loss ==> bestEpoch - 1 <= j)
  {
    bestAcc, bestLoss, bestEpoch := -1.0, None, 0;
    saved := None;
    for i := 0 to |epochs|
      invariant saved.None? ==> bestEpoch == 0 && bestAcc == -1.0 && bestLoss.None?
      invariant saved.None? ==> forall j | 0 <= j < i :: epochs[j].acc < -1.0
      invariant saved.Some? ==>
                  && 0 < bestEpoch <= i && EarliestBest(epochs[..i], bestEpoch - 1)
                  && saved.value == Checkpoint(epochs[bestEpoch - 1].model, bestEpoch, bestAcc,
                                               epochs[bestEpoch - 1].loss)
                  && bestAcc == epochs[bestEpoch - 1].acc >= -1.0
                  && bestLoss == Some(epochs[bestEpoch - 1].loss)
    {
      var e := epochs[i];
      if e.acc > bestAcc || (e.acc == bestAcc && (bestLoss.None? || e.loss < bestLoss.value)) {
        bestAcc, bestLoss, bestEpoch := e.acc, Some(e.loss), i + 1;
        saved := Some(Checkpoint(e.model, i + 1, e.acc, e.loss));
      }
    }
    assert epochs[..|epochs|] == epochs;
    if saved.Some? {
      assert epochs[bestEpoch - 1] in epochs;
    }
  }
}

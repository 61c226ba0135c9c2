/** Expected calibration error over probability bins (mlops_service lifecycle.py). Labels are 0 or 1, and the
    inner bin edges, quantiles in the source, are any edges in order between 0 and 1. */
module Calibration {

  /** The evaluation samples, label against predicted probability. */
  datatype Samples = Samples(labels: seq<real>, probabilities: seq<real>) {
    predicate Valid() {
      && |labels| == |probabilities| >= 1
      && (forall i | 0 <= i < |labels| :: labels[i] == 0.0 || labels[i] == 1.0)
      && (forall i | 0 <= i < |labels| :: 0.0 <= probabilities[i] <= 1.0)
    }
  }

  predicate EdgesOk(edges: seq<real>) {
    && |edges| >= 2 && edges[0] == 0.0 && edges[|edges| - 1] == 1.0
    && forall i, j | 0 <= i <= j < |edges| :: edges[i] <= edges[j]
  }

  function Abs(x: real): real {
    if x < 0.0 then -x else x
  }

  /** The mask of a bin: half open, and closed for the last. */
  predicate InBin(edges: seq<real>, k: nat, p: real)
    requires k + 1 < |edges|
  {
    edges[k] <= p && (p < edges[k + 1] || (k + 2 == |edges| && p <= edges[k + 1]))
  }

  // ---- masked sums ----

  function Masked(values: seq<real>, mask: seq<bool>): real
    requires |values| == |mask|
  {
    if values == [] then 0.0 else (if mask[0] then values[0] else 0.0) + Masked(values[1..], mask[1..])
  }

  function Sum(values: seq<real>): real {
    if values == [] then 0.0 else values[0] + Sum(values[1..])
  }

  function BinMask(edges: seq<real>, k: nat, probabilities: seq<real>): (mask: seq<bool>)
    requires k + 1 < |edges|
    ensures |mask| == |probabilities|
  {
    seq(|probabilities|, i requires 0 <= i < |probabilities| => InBin(edges, k, probabilities[i]))
  }

  function Ones(n: nat): (s: seq<real>)
    ensures |s| == n
  {
    seq(n, i => 1.0)
  }

  /** How many samples are in a bin. */
  function BinCount(edges: seq<real>, k: nat, s: Samples): real
    requires k + 1 < |edges|
  {
    Masked(Ones(|s.probabilities|), BinMask(edges, k, s.probabilities))
  }

  function Gap(s: Samples): (d: seq<real>)
    requires |s.labels| == |s.probabilities|
    ensures |d| == |s.labels|
  {
    seq(|s.labels|, i requires 0 <= i < |s.labels| => s.labels[i] - s.probabilities[i])
  }

  function AbsGap(s: Samples): (d: seq<real>)
    requires |s.labels| == |s.probabilities|
    ensures |d| == |s.labels|
  {
    seq(|s.labels|, i requires 0 <= i < |s.labels| => Abs(s.labels[i] - s.probabilities[i]))
  }

  // ---- the error ----

  /** A bin's share of the error from its sums and its count; an empty bin adds nothing. */
  function Share(labels: real, probabilities: real, count: real, n: real): real
    requires n > 0.0
  {
    if count == 0.0 then 0.0 else Abs(labels / count - probabilities / count) * (count / n)
  }

  function Term(edges: seq<real>, k: nat, s: Samples): real
    requires s.Valid() && k + 1 < |edges|
  {
    var mask := BinMask(edges, k, s.probabilities);
    Share(Masked(s.labels, mask), Masked(s.probabilities, mask), BinCount(edges, k, s), |s.labels| as real)
  }

  function Terms(edges: seq<real>, s: Samples): (terms: seq<real>)
    requires s.Valid() && |edges| >= 1
    ensures |terms| == |edges| - 1
  {
    seq(|edges| - 1, k requires 0 <= k < |edges| - 1 => Term(edges, k, s))
  }

  function PrefixSum(terms: seq<real>, m: nat): real
    requires m <= |terms|
  {
    if m == 0 then 0.0 else PrefixSum(terms, m - 1) + terms[m - 1]
  }

  function CalibrationError(edges: seq<real>, s: Samples): real
    requires s.Valid() && |edges| >= 1
  {
    PrefixSum(Terms(edges, s), |edges| - 1)
  }

  /** The label minus the probability, summed over the samples from lower up to upper, upper itself in the last bin. */
  function GapIn(labels: seq<real>, probabilities: seq<real>, lower: real, upper: real, last: bool): real
    requires |labels| == |probabilities|
  {
    if labels == [] then 0.0
    else
      var p := probabilities[0];
      (if lower <= p && (p < upper || (last && p == upper)) then labels[0] - p else 0.0)
      + GapIn(labels[1..], probabilities[1..], lower, upper, last)
  }

  /** The sizes of the gaps of the first m bins. */
  function GapSizes(edges: seq<real>, s: Samples, m: nat): real
    requires |s.labels| == |s.probabilities| && m < |edges|
  {
    if m == 0 then 0.0
    else GapSizes(edges, s, m - 1) + Abs(GapIn(s.labels, s.probabilities, edges[m - 1], edges[m], m == |edges| - 1))
  }

  /** The error times the number of samples is the sum, over the bins, of the size of the sum of label minus
      probability in the bin; with a single bin the error is the gap of the means. */
  method ExpectedCalibrationError(s: Samples, edges: seq<real>) returns (error: real)
    requires s.Valid() && EdgesOk(edges)
    ensures error == CalibrationError(edges, s)
    ensures error * |s.labels| as real == GapSizes(edges, s, |edges| - 1)
    ensures |edges| == 2 ==> error == Abs(Mean(s.labels) - Mean(s.probabilities))
    ensures Abs(Mean(s.labels) - Mean(s.probabilities)) <= error <= Mean(AbsGap(s)) <= 1.0
  {
    error := 0.0;
    for index := 0 to |edges| - 1
      invariant error == PrefixSum(Terms(edges, s), index)
    {
      var mask := BinMask(edges, index, s.probabilities);
      var share := BinShare(Masked(s.labels, mask), Masked(s.probabilities, mask), BinCount(edges, index, s), |s.labels| as real);
      assert Terms(edges, s)[index] == share;
      error := error + share;
    }
    ErrorBounds(s, edges);
    ErrorIsGapSizes(s, edges, |s.labels| as real, error);
    if |edges| == 2 {
      OneBin(s, edges);
    }
  }

  /** The body of the loop: observed against predicted mean, weighted; an empty bin is skipped. */
  method BinShare(labels: real, probabilities: real, count: real, n: real) returns (share: real)
    requires n > 0.0
    ensures share == Share(labels, probabilities, count, n)
  {
    if count == 0.0 {
      return 0.0;
    }
    var observed := labels / count;
    var predicted := probabilities / count;
    var weight := count / n;
    share := Abs(observed - predicted) * weight;
  }

  function Mean(values: seq<real>): real
    requires |values| >= 1
  {
    Sum(values) / |values| as real
  }

  // ---- the bins partition the samples ----

  /** The bin of a probability: the last edge at or below it, looking at the first m edges. */
  function BinOf(edges: seq<real>, m: nat, p: real): nat
    requires 1 <= m < |edges|
  {
    if m == 1 || edges[m - 1] <= p then m - 1 else BinOf(edges, m - 1, p)
  }

  lemma {:induction false} BinOfIs(edges: seq<real>, m: nat, p: real)
    requires EdgesOk(edges) && 1 <= m < |edges| && 0.0 <= p <= 1.0
    requires m == |edges| - 1 || p < edges[m]
    ensures BinOf(edges, m, p) < m && InBin(edges, BinOf(edges, m, p), p)
  {
    if m > 1 && edges[m - 1] > p {
      BinOfIs(edges, m - 1, p);
    }
  }

  lemma LowerBinsExclude(edges: seq<real>, k: nat, p: real)
    requires EdgesOk(edges) && k + 1 < |edges| && edges[k] <= p
    ensures forall j: nat | j < k :: !InBin(edges, j, p)
  {
    forall j: nat | j < k ensures !InBin(edges, j, p) {
      assert edges[j + 1] <= edges[k];
    }
  }

  /** Every probability is in exactly one bin. */
  lemma InOneBin(edges: seq<real>, p: real, k: nat)
    requires EdgesOk(edges) && 0.0 <= p <= 1.0 && k + 1 < |edges|
    ensures InBin(edges, k, p) <==> k == BinOf(edges, |edges| - 1, p)
  {
    BinOfIs(edges, |edges| - 1, p);
    LowerBinsExclude(edges, BinOf(edges, |edges| - 1, p), p);
    if InBin(edges, k, p) {
      LowerBinsExclude(edges, k, p);
    }
  }

  /** The masked sums of the first m bins. */
  function Total(edges: seq<real>, m: nat, values: seq<real>, probabilities: seq<real>): real
    requires m < |edges| && |values| == |probabilities|
  {
    if m == 0 then 0.0
    else Total(edges, m - 1, values, probabilities) + Masked(values, BinMask(edges, m - 1, probabilities))
  }

  lemma MaskTail(edges: seq<real>, k: nat, probabilities: seq<real>)
    requires k + 1 < |edges| && probabilities != []
    ensures BinMask(edges, k, probabilities)[1..] == BinMask(edges, k, probabilities[1..])
    ensures BinMask(edges, k, probabilities)[0] == InBin(edges, k, probabilities[0])
  {
  }

  /** One sample adds its value to the total once its bin has been counted. */
  lemma {:induction false} TotalSplits(edges: seq<real>, m: nat, values: seq<real>, probabilities: seq<real>)
    requires EdgesOk(edges) && m < |edges| && |values| == |probabilities| && values != [] && 0.0 <= probabilities[0] <= 1.0
    ensures Total(edges, m, values, probabilities)
         == (if BinOf(edges, |edges| - 1, probabilities[0]) < m then values[0] else 0.0)
            + Total(edges, m, values[1..], probabilities[1..])
  {
    if m > 0 {
      TotalSplits(edges, m - 1, values, probabilities);
      MaskTail(edges, m - 1, probabilities);
      InOneBin(edges, probabilities[0], m - 1);
    }
  }

  lemma {:induction false} TotalOfNone(edges: seq<real>, m: nat)
    requires m < |edges|
    ensures Total(edges, m, [], []) == 0.0
  {
    if m > 0 {
      TotalOfNone(edges, m - 1);
    }
  }

  /** Summing any values bin by bin sums them once each. */
  lemma {:induction false} BinsPartition(edges: seq<real>, values: seq<real>, probabilities: seq<real>)
    requires EdgesOk(edges) && |values| == |probabilities|
    requires forall i | 0 <= i < |probabilities| :: 0.0 <= probabilities[i] <= 1.0
    ensures Total(edges, |edges| - 1, values, probabilities) == Sum(values)
    decreases |values|
  {
    if values == [] {
      TotalOfNone(edges, |edges| - 1);
    } else {
      TotalSplits(edges, |edges| - 1, values, probabilities);
      BinOfIs(edges, |edges| - 1, probabilities[0]);
      BinsPartition(edges, values[1..], probabilities[1..]);
    }
  }

  lemma {:induction false} SumOfOnes(n: nat)
    ensures Sum(Ones(n)) == n as real
  {
    if n > 0 {
      assert Ones(n)[1..] == Ones(n - 1);
      SumOfOnes(n - 1);
    }
  }

  lemma Whole(x: real, n: real)
    requires x == n && n > 0.0
    ensures x / n == 1.0
  {
  }

  /** The counts of the bins add up to the number of samples, so their weights add up to one. */
  lemma WeightsSumToOne(s: Samples, edges: seq<real>, m: nat)
    requires s.Valid() && EdgesOk(edges) && m == |edges| - 1
    ensures Total(edges, m, Ones(|s.labels|), s.probabilities) == |s.labels| as real
    ensures Total(edges, m, Ones(|s.labels|), s.probabilities) / |s.labels| as real == 1.0
  {
    BinsPartition(edges, Ones(|s.labels|), s.probabilities);
    SumOfOnes(|s.labels|);
    Whole(Total(edges, m, Ones(|s.labels|), s.probabilities), |s.labels| as real);
  }

  // ---- the bounds ----

  lemma {:induction false} MaskedGap(labels: seq<real>, probabilities: seq<real>, gap: seq<real>, mask: seq<bool>)
    requires |labels| == |probabilities| == |gap| == |mask|
    requires forall i | 0 <= i < |gap| :: gap[i] == labels[i] - probabilities[i]
    ensures Masked(labels, mask) - Masked(probabilities, mask) == Masked(gap, mask)
    decreases |gap|
  {
    if gap != [] {
      MaskedGap(labels[1..], probabilities[1..], gap[1..], mask[1..]);
    }
  }

  /** A masked sum is at most the masked sum of the absolute values. */
  lemma {:induction false} MaskedTriangle(gap: seq<real>, size: seq<real>, mask: seq<bool>)
    requires |gap| == |size| == |mask| && forall i | 0 <= i < |gap| :: size[i] == Abs(gap[i])
    ensures Abs(Masked(gap, mask)) <= Masked(size, mask)
    decreases |gap|
  {
    if gap != [] {
      MaskedTriangle(gap[1..], size[1..], mask[1..]);
    }
  }

  /** Nothing in the bin, nothing in any masked sum. */
  lemma {:induction false} EmptyBin(values: seq<real>, mask: seq<bool>)
    requires |values| == |mask|
    ensures Masked(Ones(|values|), mask) >= 0.0
    ensures Masked(Ones(|values|), mask) == 0.0 ==> Masked(values, mask) == 0.0
    decreases |values|
  {
    if values != [] {
      assert Ones(|values|)[1..] == Ones(|values| - 1);
      EmptyBin(values[1..], mask[1..]);
    }
  }

  lemma Cancel(a: real, b: real, count: real, n: real)
    requires count > 0.0 && n > 0.0
    ensures Abs(a / count - b / count) * (count / n) == Abs(a - b) / n
  {
    var x, y, w := a / count, b / count, count / n;
    assert x * count == a && y * count == b && w * n == count;
    assert (x - y) * count == a - b;
    AbsScales(x - y, count);
    assert Abs(x - y) * w * n == Abs(x - y) * count;
  }

  lemma AbsScales(x: real, count: real)
    requires count > 0.0
    ensures Abs(x * count) == Abs(x) * count
  {
  }

  /** A bin's share is the absolute sum of its gaps over the number of samples. */
  lemma ShareIsGap(labels: real, probabilities: real, gap: real, count: real, n: real)
    requires n > 0.0 && count >= 0.0 && gap == labels - probabilities && (count == 0.0 ==> labels == 0.0 && probabilities == 0.0)
    ensures Share(labels, probabilities, count, n) * n == Abs(gap)
  {
    if count != 0.0 {
      Cancel(labels, probabilities, count, n);
      Multiply(Abs(gap), n);
    }
  }

  lemma TermIsGap(edges: seq<real>, k: nat, s: Samples, n: real)
    requires s.Valid() && k + 1 < |edges| && n == |s.labels| as real
    ensures Terms(edges, s)[k] * n == Abs(Masked(Gap(s), BinMask(edges, k, s.probabilities)))
  {
    var mask := BinMask(edges, k, s.probabilities);
    MaskedGap(s.labels, s.probabilities, Gap(s), mask);
    EmptyBin(s.labels, mask);
    EmptyBin(s.probabilities, mask);
    ShareIsGap(Masked(s.labels, mask), Masked(s.probabilities, mask), Masked(Gap(s), mask), BinCount(edges, k, s), n);
  }

  lemma Multiply(x: real, n: real)
    requires n > 0.0
    ensures (x / n) * n == x
  {
  }

  lemma Distribute(x: real, y: real, n: real)
    ensures (x + y) * n == x * n + y * n
  {
  }

  lemma {:induction false} ScalePrefix(terms: seq<real>, scaled: seq<real>, n: real, m: nat)
    requires |terms| == |scaled| && m <= |terms| && forall k | 0 <= k < |terms| :: terms[k] * n == scaled[k]
    ensures PrefixSum(terms, m) * n == PrefixSum(scaled, m)
  {
    if m > 0 {
      ScalePrefix(terms, scaled, n, m - 1);
      Distribute(PrefixSum(terms, m - 1), terms[m - 1], n);
    }
  }

  function BinGaps(edges: seq<real>, s: Samples): (gaps: seq<real>)
    requires s.Valid() && |edges| >= 1
    ensures |gaps| == |edges| - 1
  {
    seq(|edges| - 1, k requires 0 <= k < |edges| - 1 => Abs(Masked(Gap(s), BinMask(edges, k, s.probabilities))))
  }

  /** The first m bins: the gap of their total is at most their gaps' total, which is at most their absolute gap. */
  lemma {:induction false} PrefixBounds(edges: seq<real>, m: nat, s: Samples)
    requires s.Valid() && m < |edges|
    ensures Abs(Total(edges, m, Gap(s), s.probabilities)) <= PrefixSum(BinGaps(edges, s), m) <= Total(edges, m, AbsGap(s), s.probabilities)
  {
    if m > 0 {
      var k: nat := m - 1;
      PrefixBounds(edges, k, s);
      MaskedTriangle(Gap(s), AbsGap(s), BinMask(edges, k, s.probabilities));
      assert BinGaps(edges, s)[k] == Abs(Masked(Gap(s), BinMask(edges, k, s.probabilities)));
    }
  }

  lemma {:induction false} SumGap(labels: seq<real>, probabilities: seq<real>, gap: seq<real>)
    requires |labels| == |probabilities| == |gap|
    requires forall i | 0 <= i < |gap| :: gap[i] == labels[i] - probabilities[i]
    ensures Sum(labels) - Sum(probabilities) == Sum(gap)
    decreases |gap|
  {
    if gap != [] {
      SumGap(labels[1..], probabilities[1..], gap[1..]);
    }
  }

  lemma {:induction false} SumAtMost(values: seq<real>)
    requires forall i | 0 <= i < |values| :: values[i] <= 1.0
    ensures Sum(values) <= |values| as real
    decreases |values|
  {
    if values != [] {
      SumAtMost(values[1..]);
    }
  }

  lemma Divide(x: real, y: real, n: real)
    requires n > 0.0 && x <= y * n
    ensures x / n <= y
  {
    assert (x / n) * n == x;
    if x / n > y {
      Grow(x / n, y, n);
    }
  }

  lemma Grow(x: real, y: real, n: real)
    requires x > y && n > 0.0
    ensures x * n > y * n
  {
  }

  lemma DivideBelow(x: real, y: real, n: real)
    requires n > 0.0 && x * n <= y
    ensures x <= y / n
  {
    assert (y / n) * n == y;
    if x > y / n {
      Grow(x, y / n, n);
    }
  }

  lemma AbsQuotient(a: real, b: real, n: real)
    requires n > 0.0
    ensures Abs(a / n - b / n) == Abs(a - b) / n
  {
    assert n / n == 1.0;
    Cancel(a, b, n, n);
    assert Abs(a / n - b / n) * (n / n) == Abs(a / n - b / n);
  }

  lemma DivideAll(labels: real, probabilities: real, error: real, scaled: real, size: real, n: real)
    requires n > 0.0 && error * n == scaled && Abs(labels - probabilities) <= scaled <= size <= n
    ensures Abs(labels / n - probabilities / n) <= error <= size / n <= 1.0
  {
    AbsQuotient(labels, probabilities, n);
    Divide(Abs(labels - probabilities), error, n);
    DivideBelow(error, size, n);
    Divide(size, 1.0, n);
  }

  lemma TotalGap(s: Samples, edges: seq<real>)
    requires s.Valid() && EdgesOk(edges)
    ensures Total(edges, |edges| - 1, Gap(s), s.probabilities) == Sum(s.labels) - Sum(s.probabilities)
  {
    BinsPartition(edges, Gap(s), s.probabilities);
    SumGap(s.labels, s.probabilities, Gap(s));
  }

  lemma TotalSize(s: Samples, edges: seq<real>)
    requires s.Valid() && EdgesOk(edges)
    ensures Total(edges, |edges| - 1, AbsGap(s), s.probabilities) == Sum(AbsGap(s)) <= |s.labels| as real
  {
    BinsPartition(edges, AbsGap(s), s.probabilities);
    SumAtMost(AbsGap(s));
  }

  lemma GapBounds(s: Samples, edges: seq<real>, m: nat)
    requires s.Valid() && EdgesOk(edges) && m == |edges| - 1
    ensures Abs(Sum(s.labels) - Sum(s.probabilities)) <= PrefixSum(BinGaps(edges, s), m)
    ensures PrefixSum(BinGaps(edges, s), m) <= Sum(AbsGap(s))
    ensures Sum(AbsGap(s)) <= |s.labels| as real
  {
    TotalGap(s, edges);
    TotalSize(s, edges);
    PrefixBounds(edges, m, s);
  }

  lemma TermsAreGaps(s: Samples, edges: seq<real>, n: real)
    requires s.Valid() && |edges| >= 1 && n == |s.labels| as real
    ensures forall k | 0 <= k < |edges| - 1 :: Terms(edges, s)[k] * n == BinGaps(edges, s)[k]
  {
    forall k | 0 <= k < |edges| - 1 ensures Terms(edges, s)[k] * n == BinGaps(edges, s)[k] {
      TermIsGap(edges, k, s, n);
    }
  }

  lemma ErrorIsGaps(s: Samples, edges: seq<real>, n: real, m: nat)
    requires s.Valid() && m == |edges| - 1 && n == |s.labels| as real
    ensures PrefixSum(Terms(edges, s), m) * n == PrefixSum(BinGaps(edges, s), m)
  {
    var terms, gaps := Terms(edges, s), BinGaps(edges, s);
    assert forall k | 0 <= k < |terms| :: terms[k] * n == gaps[k] by {
      TermsAreGaps(s, edges, n);
    }
    ScalePrefix(terms, gaps, n, m);
  }

  lemma MeanBounds(s: Samples, error: real, scaled: real, n: real)
    requires s.Valid() && n == |s.labels| as real && error * n == scaled
    requires Abs(Sum(s.labels) - Sum(s.probabilities)) <= scaled <= Sum(AbsGap(s)) <= n
    ensures Abs(Mean(s.labels) - Mean(s.probabilities)) <= error <= Mean(AbsGap(s)) <= 1.0
  {
    DivideAll(Sum(s.labels), Sum(s.probabilities), error, scaled, Sum(AbsGap(s)), n);
  }

  lemma ErrorFacts(s: Samples, edges: seq<real>, n: real) returns (error: real, scaled: real)
    requires s.Valid() && EdgesOk(edges) && n == |s.labels| as real
    ensures error == CalibrationError(edges, s) && error * n == scaled
    ensures Abs(Sum(s.labels) - Sum(s.probabilities)) <= scaled <= Sum(AbsGap(s)) <= n
  {
    var m := |edges| - 1;
    error, scaled := PrefixSum(Terms(edges, s), m), PrefixSum(BinGaps(edges, s), m);
    ErrorIsGaps(s, edges, n, m);
    GapBounds(s, edges, m);
  }

  /** The calibration error lies between the gap of the means and the mean absolute gap, which is at most one. */
  lemma ErrorBounds(s: Samples, edges: seq<real>)
    requires s.Valid() && EdgesOk(edges)
    ensures Abs(Mean(s.labels) - Mean(s.probabilities)) <= CalibrationError(edges, s) <= Mean(AbsGap(s)) <= 1.0
  {
    var error, scaled := ErrorFacts(s, edges, |s.labels| as real);
    MeanBounds(s, error, scaled, |s.labels| as real);
  }

  // ---- the error, exactly ----

  lemma {:induction false} GapInIsMasked(labels: seq<real>, probabilities: seq<real>, gap: seq<real>, edges: seq<real>, k: nat)
    requires |labels| == |probabilities| == |gap| && k + 1 < |edges|
    requires forall i | 0 <= i < |gap| :: gap[i] == labels[i] - probabilities[i]
    ensures GapIn(labels, probabilities, edges[k], edges[k + 1], k + 2 == |edges|) == Masked(gap, BinMask(edges, k, probabilities))
    decreases |gap|
  {
    if gap != [] {
      GapInIsMasked(labels[1..], probabilities[1..], gap[1..], edges, k);
      MaskTail(edges, k, probabilities);
    }
  }

  lemma {:induction false} GapSizesArePrefix(s: Samples, edges: seq<real>, m: nat)
    requires s.Valid() && m < |edges|
    ensures GapSizes(edges, s, m) == PrefixSum(BinGaps(edges, s), m)
  {
    if m > 0 {
      var k: nat := m - 1;
      GapSizesArePrefix(s, edges, k);
      GapInIsMasked(s.labels, s.probabilities, Gap(s), edges, k);
      assert BinGaps(edges, s)[k] == Abs(Masked(Gap(s), BinMask(edges, k, s.probabilities)));
    }
  }

  /** The weighted mean gaps of the bins are the sizes of their summed gaps over the number of samples. */
  lemma ErrorIsGapSizes(s: Samples, edges: seq<real>, n: real, error: real)
    requires s.Valid() && EdgesOk(edges) && n == |s.labels| as real && error == CalibrationError(edges, s)
    ensures error * n == GapSizes(edges, s, |edges| - 1)
  {
    var m := |edges| - 1;
    var scaled := PrefixSum(BinGaps(edges, s), m);
    ErrorProduct(s, edges, n, m, error, scaled);
    GapSizesArePrefix(s, edges, m);
  }

  lemma ErrorProduct(s: Samples, edges: seq<real>, n: real, m: nat, error: real, scaled: real)
    requires s.Valid() && m == |edges| - 1 && n == |s.labels| as real
    requires error == PrefixSum(Terms(edges, s), m) && scaled == PrefixSum(BinGaps(edges, s), m)
    ensures error * n == scaled
  {
    ErrorIsGaps(s, edges, n, m);
  }

  lemma {:induction false} WholeGap(labels: seq<real>, probabilities: seq<real>)
    requires |labels| == |probabilities| && forall i | 0 <= i < |probabilities| :: 0.0 <= probabilities[i] <= 1.0
    ensures GapIn(labels, probabilities, 0.0, 1.0, true) == Sum(labels) - Sum(probabilities)
    decreases |labels|
  {
    if labels != [] {
      WholeGap(labels[1..], probabilities[1..]);
    }
  }

  lemma OneBin(s: Samples, edges: seq<real>)
    requires s.Valid() && EdgesOk(edges) && |edges| == 2
    ensures CalibrationError(edges, s) == Abs(Mean(s.labels) - Mean(s.probabilities))
  {
    var n, error := |s.labels| as real, CalibrationError(edges, s);
    ErrorIsGapSizes(s, edges, n, error);
    WholeGap(s.labels, s.probabilities);
    assert GapSizes(edges, s, 0) == 0.0;
    OneQuotient(Sum(s.labels), Sum(s.probabilities), error, n);
  }

  lemma OneQuotient(a: real, b: real, error: real, n: real)
    requires n > 0.0 && error * n == Abs(a - b)
    ensures error == Abs(a / n - b / n)
  {
    AbsQuotient(a, b, n);
    assert error == Abs(a - b) / n;
  }
}

/** The configuration in `visualizer.py`: a history of 5 bar vectors, a blend
    weighted by `2**index + 1` with no guard for short vectors, a Gaussian of degree 3
    and no normalisation, a 20 Hz bucket grid, and bars taken after dropping the
    first 1200 magnitudes, with a `max` that has no default. */
module Visualizer {
  import opened Common
  import opened Smoothing
  import opened Bucketing

  /** `2**index` as a number. */
  function TwoPow(index: nat): (w: real)
    ensures w >= 1.0
  {
    Pow2(index) as real
  }

  const HistoryLen: nat := 5
  const Degree: nat := 3
  const GridStepHz: nat := 20
  /** Number of leading magnitudes dropped by `Pxx[1200:]`. */
  const Trim: nat := 1200

  // ---------------------------------------------------------------------------
  // Weighted temporal blend

  /** Every history vector is at least as long as the oldest one: `item[index]` is
      read without a guard. */
  ghost predicate LongEnough(values: seq<seq<real>>)
  {
    |values| > 0 && forall k :: 0 <= k < |values| ==> |values[k]| >= |values[0]|
  }

  /** `item[index]` for every history vector, oldest first. */
  function Column(values: seq<seq<real>>, index: nat): (c: seq<real>)
    requires forall k :: 0 <= k < |values| ==> |values[k]| > index
    ensures |c| == |values|
  {
    seq(|values|, k requires 0 <= k < |values| => values[k][index])
  }

  /** What `get_smooth_sample` adds to `to_be_meaned` for one history vector:
      `item[index] * 2**index+1`, which is `(item[index] * 2**index) + 1`. */
  function Term(item: seq<real>, index: nat): (t: real)
    requires |item| > index
    ensures index == 0 ==> t == item[0] + 1.0
    ensures item[index] >= 0.0 ==> t >= 1.0
  {
    item[index] * TwoPow(index) + 1.0
  }

  /** `to_be_meaned` for bar `index`, one entry per history vector, oldest first. */
  function Terms(values: seq<seq<real>>, index: nat): (t: seq<real>)
    requires forall k :: 0 <= k < |values| ==> |values[k]| > index
    ensures |t| == |values|
  {
    seq(|values|, k requires 0 <= k < |values| => Term(values[k], index))
  }

  /** Bar `index` of the blend: the sum of the terms divided by `divisor`, which has
      grown by `2**index + 1` once per history vector. */
  function BlendAt(values: seq<seq<real>>, index: nat): (b: real)
    requires |values| > 0
    requires forall k :: 0 <= k < |values| ==> |values[k]| > index
    ensures (forall k :: 0 <= k < |values| ==> values[k][index] >= 0.0) ==> b > 0.0
  {
    var t := Terms(values, index);
    assert (forall k :: 0 <= k < |values| ==> values[k][index] >= 0.0) ==> Sum(t) > 0.0 by {
      if forall k :: 0 <= k < |values| ==> values[k][index] >= 0.0 {
        assert AllPositive(t);
        SumPositive(t);
      }
    }
    Sum(t) / (|values| as real * (TwoPow(index) + 1.0))
  }

  /** The blended vector: as long as the oldest vector in the history. */
  function Blend(values: seq<seq<real>>): (b: seq<real>)
    requires LongEnough(values)
    ensures |b| == |values[0]|
  {
    seq(|values[0]|, i requires 0 <= i < |values[0]| => BlendAt(values, i))
  }

  /** The blend in closed form: `(2**i * sum(item[i]) + n) / (n * (2**i + 1))`. */
  lemma BlendClosedForm(values: seq<seq<real>>, index: nat)
    requires |values| > 0
    requires forall k :: 0 <= k < |values| ==> |values[k]| > index
    ensures BlendAt(values, index) ==
      (TwoPow(index) * Sum(Column(values, index)) + |values| as real) /
      (|values| as real * (TwoPow(index) + 1.0))
  {
    var p, n := TwoPow(index), |values| as real;
    var t, c := Terms(values, index), Column(values, index);
    assert Sum(t) == p * Sum(c) + n by {
      assert forall k :: 0 <= k < |values| ==> t[k] == c[k] * p + 1.0;
      SumAffine(c, t, p, 1.0);
    }
    assert (TwoPow(index) + 1.0) == p + 1.0;
  }

  /** When every history vector holds `v` at `index`, every term there is
      `2**index * v + 1`. */
  lemma TermsUniform(values: seq<seq<real>>, index: nat, v: real)
    requires forall k :: 0 <= k < |values| ==> |values[k]| > index && values[k][index] == v
    ensures Sum(Terms(values, index)) == |values| as real * (TwoPow(index) * v + 1.0)
  {
    var t, c := Terms(values, index), TwoPow(index) * v + 1.0;
    assert forall k :: 0 <= k < |values| ==> t[k] == c;
    SumConstant(t, c);
  }

  /** When every history vector holds `v` at `index`, the blend there is
      `(2**i * v + 1) / (2**i + 1)`. */
  lemma BlendUniform(values: seq<seq<real>>, index: nat, v: real)
    requires |values| > 0
    requires forall k :: 0 <= k < |values| ==> |values[k]| > index && values[k][index] == v
    ensures BlendAt(values, index) == (TwoPow(index) * v + 1.0) / (TwoPow(index) + 1.0)
  {
    TermsUniform(values, index, v);
    DivCancel(Sum(Terms(values, index)), |values| as real, TwoPow(index) * v + 1.0, TwoPow(index) + 1.0);
  }

  /** In particular, a history whose vectors all hold 1 at `index` blends to 1 there. */
  lemma BlendOfOnes(values: seq<seq<real>>, index: nat)
    requires |values| > 0
    requires forall k :: 0 <= k < |values| ==> |values[k]| > index && values[k][index] == 1.0
    ensures BlendAt(values, index) == 1.0
  {
    BlendUniform(values, index, 1.0);
    var p := TwoPow(index);
    assert p * 1.0 + 1.0 == p + 1.0;
  }

  /** A history of all-ones vectors, none shorter than the oldest, smooths to 1 at
      every position of the convolution. */
  lemma SmoothOfOnes(values: seq<seq<real>>, exp: real -> real, i: nat)
    requires LongEnough(values) && Positive(exp) && i + 5 <= |values[0]|
    requires forall k, j :: 0 <= k < |values| && 0 <= j < |values[k]| ==> values[k][j] == 1.0
    ensures WindowMean(Blend(values)[i..i + 5], Kernel(Degree, exp)) == 1.0
  {
    var b := Blend(values);
    forall j | i <= j < i + 5
      ensures b[j] == 1.0
    {
      BlendOfOnes(values, j);
    }
    SmoothedConstantRun(b, Degree, exp, i, 1.0);
  }

  /** `smoothListGaussian(sample)` with the default degree 3 (window 5): the
      `len(sample) - 5` weighted means, with no normalisation. */
  method SmoothListGaussian(sample: seq<real>, exp: real -> real) returns (smoothed: seq<real>)
    requires Positive(exp)
    ensures |smoothed| == if |sample| > 5 then |sample| - 5 else 0
    ensures forall i :: 0 <= i < |smoothed| ==>
      smoothed[i] == WindowMean(sample[i..i + 5], Kernel(Degree, exp))
  {
    smoothed := GaussianSmooth(sample, Degree, exp);
  }

  // ---------------------------------------------------------------------------
  // The smoother

  class Smoother {
    /** `self.values`, a `deque(maxlen=5)`, oldest first. */
    var values: seq<seq<real>>
    /** Every sample ever added, oldest first. */
    ghost var appended: seq<seq<real>>

    /** The deque holds the 5 most recent samples. */
    ghost predicate Valid()
      reads this
    {
      values == LastN(appended, HistoryLen)
    }

    constructor ()
      ensures Valid() && appended == [] && values == []
    {
      values := [];
      appended := [];
    }

    /** `add_sample`: the sample becomes the newest entry; when 5 are already held
        the oldest is evicted; the others keep their order. */
    method AddSample(sample: seq<real>)
      requires Valid()
      modifies this
      ensures Valid() && appended == old(appended) + [sample]
      ensures |values| <= HistoryLen && values[|values| - 1] == sample
      ensures |old(values)| < HistoryLen ==> values == old(values) + [sample]
      ensures |old(values)| == HistoryLen ==> values == old(values)[1..] + [sample]
    {
      BoundedAppendKeepsNewest(appended, sample, HistoryLen);
      BoundedAppendShape(values, sample, HistoryLen);
      values := BoundedAppend(values, sample, HistoryLen);
      appended := appended + [sample];
    }

    /** The inner loop of `get_smooth_sample` for bar `index`: collect the terms in
        `to_be_meaned`, grow `divisor` once per history vector, then divide. A
        vector with no entry at `index` raises IndexError. */
    method BlendBar(index: nat) returns (r: Result<real>)
      requires |values| > 0
      ensures r.Err? <==> exists k :: 0 <= k < |values| && |values[k]| <= index
      ensures r.Err? ==> r.error == IndexError
      ensures r.Ok? ==> forall k :: 0 <= k < |values| ==> |values[k]| > index
      ensures r.Ok? ==> r.value == BlendAt(values, index)
    {
      var toBeMeaned: seq<real> := [];
      var divisor := 0.0;
      for j := 0 to |values|
        invariant |toBeMeaned| == j
        invariant forall m :: 0 <= m < j ==> |values[m]| > index
        invariant forall m :: 0 <= m < j ==> toBeMeaned[m] == Term(values[m], index)
        invariant divisor == j as real * (TwoPow(index) + 1.0)
      {
        var item := values[j];
        if |item| <= index {
          return Err(IndexError);
        }
        toBeMeaned := toBeMeaned + [item[index] * TwoPow(index) + 1.0];
        divisor := divisor + (TwoPow(index) + 1.0);
      }
      assert toBeMeaned == Terms(values, index);
      r := Ok(Sum(toBeMeaned) / divisor);
    }

    /** `get_smooth_sample`: the weighted blend over the history, as long as its
        oldest vector, then `smoothListGaussian`. `values[0]` on an empty history
        and `item[index]` on a vector shorter than the oldest one raise IndexError;
        otherwise the result has `len(values[0]) - 5` entries (none when that is not
        positive). */
    method GetSmoothSample(exp: real -> real) returns (r: Result<seq<real>>)
      requires Positive(exp)
      ensures r.Err? <==> !LongEnough(values)
      ensures r.Err? ==> r.error == IndexError
      ensures r.Ok? ==> LongEnough(values)
      ensures r.Ok? ==> |r.value| == if |values[0]| > 5 then |values[0]| - 5 else 0
      ensures r.Ok? ==> forall i :: 0 <= i < |r.value| ==>
        r.value[i] == WindowMean(Blend(values)[i..i + 5], Kernel(Degree, exp))
    {
      if |values| == 0 {
        return Err(IndexError);
      }
      var sample: seq<real> := [];
      for index := 0 to |values[0]|
        invariant |sample| == index
        invariant forall k :: 0 <= k < |values| ==> |values[k]| >= index
        invariant forall i :: 0 <= i < index ==> sample[i] == BlendAt(values, i)
      {
        var x := BlendBar(index);
        if x.Err? {
          return Err(IndexError);
        }
        sample := sample + [x.value];
      }
      assert sample == Blend(values);
      var smoothed := SmoothListGaussian(sample, exp);
      r := Ok(smoothed);
    }
  }

  // ---------------------------------------------------------------------------
  // Bucket table and reduction

  /** `Visualizer._get_audio_groups(count)` on the 20 Hz grid. Every boundary is
      above 11 Hz, so each `start` is the first grid index above the low boundary;
      a high boundary below 20 Hz makes the scan's `not end` test skip `end == 0`
      and stop at index 2. Pairs are ordered, and consecutive pairs share their
      boundary wherever it is at least 20 Hz. */
  method GetAudioGroups(count: nat, pow11: real -> real) returns (r: Result<seq<Group>>)
    requires Increasing(pow11) && pow11(1.0) == 11.0
    ensures count == 0 ==> r == Err(ZeroDivisionError)
    ensures count > 0 ==> (r.Err? <==> Boundary(pow11, count, count) >= 23980.0)
    ensures count > 0 && r.Err? ==> r.error == TypeError
    ensures r.Ok? ==> count > 0 && |r.value| == count
    ensures r.Ok? ==> forall k :: 0 <= k < count ==>
      r.value[k].start == FirstAbove(Boundary(pow11, count, k), GridStepHz) &&
      r.value[k].stop == StopIndex(Boundary(pow11, count, k + 1), GridStepHz) &&
      r.value[k].start <= r.value[k].stop
    ensures r.Ok? ==> forall k :: 0 <= k < count - 1 ==>
      Boundary(pow11, count, k + 1) >= 20.0 ==> r.value[k].stop == r.value[k + 1].start
  {
    assert LastGridHz(GridStepHz) == 23980;
    r := BuildAudioGroups(count, GridStepHz, pow11);
    if r.Ok? {
      forall k | 0 <= k < count
        ensures r.value[k].start == FirstAbove(Boundary(pow11, count, k), GridStepHz)
        ensures r.value[k].start <= r.value[k].stop
        ensures Boundary(pow11, count, k + 1) >= 20.0 ==>
          r.value[k].stop == FirstAbove(Boundary(pow11, count, k + 1), GridStepHz)
      {
        ExponentIncreasing(count, k, k + 1);
        var lo, hi := Boundary(pow11, count, k), Boundary(pow11, count, k + 1);
        FirstAboveIsLeast(lo, GridStepHz, 0);
        GroupOrdered(lo, hi, GridStepHz);
        if hi >= 20.0 {
          ScanIndicesClean(lo, hi, GridStepHz);
        }
      }
    }
  }

  /** The reduction in `update_audio_data`: drop the first 1200 magnitudes, then for
      each pair apply `if start <= end: end = start + 1` and take `max(Pxx[start:end])`,
      which raises ValueError on an empty slice. It succeeds exactly when every pair
      is ordered and its `start` is inside the trimmed spectrum; each bar is then
      the single bin `Pxx[1200 + start]`. */
  method ReduceBars(pxx: seq<real>, groups: seq<Group>) returns (r: Result<seq<real>>)
    ensures r.Ok? <==> forall k :: 0 <= k < |groups| ==>
      groups[k].start <= groups[k].stop && Trim + groups[k].start < |pxx|
    ensures r.Err? ==> r.error == ValueError
    ensures r.Ok? ==> |r.value| == |groups|
    ensures r.Ok? ==> forall k :: 0 <= k < |groups| ==> r.value[k] == pxx[Trim + groups[k].start]
  {
    var upper := Slice(pxx, Trim, |pxx|);
    var currentSample: seq<real> := [];
    for k := 0 to |groups|
      invariant |currentSample| == k
      invariant forall m :: 0 <= m < k ==>
        groups[m].start <= groups[m].stop && Trim + groups[m].start < |pxx| &&
        currentSample[m] == pxx[Trim + groups[m].start]
    {
      var start, end := groups[k].start, groups[k].stop;
      if start <= end {
        end := start + 1;
      }
      var slice := Slice(upper, start, end);
      if |slice| == 0 {
        return Err(ValueError);
      }
      currentSample := currentSample + [SeqMax(slice)];
    }
    r := Ok(currentSample);
  }
}

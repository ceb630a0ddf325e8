/** The configuration in `viz.py`: a history of 6 bar vectors, a blend weighted by
    `0.5 * index + 1` that tolerates short vectors, a Gaussian of degree 4 followed by
    a linear amplitude ramp, a 10 Hz bucket grid, and bars taken from the upper half
    of the spectrum with `max(..., default=0)`. */
module Viz {
  import opened Common
  import opened Smoothing
  import opened Bucketing

  const HistoryLen: nat := 6
  const Degree: nat := 4
  const GridStepHz: nat := 10

  // ---------------------------------------------------------------------------
  // Weighted temporal blend

  /** What `get_smooth_sample` adds to `to_be_meaned` for one history vector:
      `item[index] * 0.5*index+1`, i.e. `(item[index] * 0.5 * index) + 1`, or 0 when
      the vector has no entry at `index`. */
  function Term(item: seq<real>, index: nat): (t: real)
    ensures |item| <= index ==> t == 0.0
    ensures 0 < |item| && index == 0 ==> t == 1.0
  {
    if |item| > index then item[index] * 0.5 * index as real + 1.0 else 0.0
  }

  /** `to_be_meaned` for bar `index`, one entry per history vector, oldest first. */
  function Terms(values: seq<seq<real>>, index: nat): (t: seq<real>)
    ensures |t| == |values|
  {
    seq(|values|, k requires 0 <= k < |values| => Term(values[k], index))
  }

  /** Bar `index` of the blend: the sum of the terms divided by `divisor`, which
      has grown by `0.5 * index + 1` once per history vector. */
  function BlendAt(values: seq<seq<real>>, index: nat): (b: real)
    requires |values| > 0
    ensures (forall k :: 0 <= k < |values| ==> |values[k]| <= index) ==> b == 0.0
  {
    var t := Terms(values, index);
    assert (forall k :: 0 <= k < |values| ==> |values[k]| <= index) ==> Sum(t) == 0.0 by {
      if forall k :: 0 <= k < |values| ==> |values[k]| <= index {
        SumConstant(t, 0.0);
      }
    }
    Sum(t) / (|values| as real * (0.5 * index as real + 1.0))
  }

  /** The blended vector: as long as the oldest vector in the history. */
  function Blend(values: seq<seq<real>>): (b: seq<real>)
    requires |values| > 0
    ensures |b| == |values[0]|
  {
    seq(|values[0]|, i requires 0 <= i < |values[0]| => BlendAt(values, i))
  }

  /** Because of the precedence of `item[index] * 0.5*index+1`, every term at bar 0
      is exactly 1, so bar 0 of the blend is 1 whatever the magnitudes, as long as
      no history vector is empty. */
  lemma BlendFirstIsOne(values: seq<seq<real>>)
    requires |values| > 0
    requires forall k :: 0 <= k < |values| ==> |values[k]| > 0
    ensures BlendAt(values, 0) == 1.0
  {
    SumConstant(Terms(values, 0), 1.0);
  }

  /** When every history vector holds `v` at `index`, the blend there is
      `(v * 0.5 * index + 1) / (0.5 * index + 1)`. */
  lemma BlendUniform(values: seq<seq<real>>, index: nat, v: real)
    requires |values| > 0
    requires forall k :: 0 <= k < |values| ==> |values[k]| > index && values[k][index] == v
    ensures BlendAt(values, index) == (v * 0.5 * index as real + 1.0) / (0.5 * index as real + 1.0)
  {
    var n := |values| as real;
    var c := v * 0.5 * index as real + 1.0;
    var d := 0.5 * index as real + 1.0;
    assert forall k :: 0 <= k < |values| ==> Terms(values, index)[k] == c;
    SumConstant(Terms(values, index), c);
    DivCancel(Sum(Terms(values, index)), n, c, d);
  }

  /** In particular, a history whose vectors all hold 1 at `index` blends to 1 there. */
  lemma BlendOfOnes(values: seq<seq<real>>, index: nat)
    requires |values| > 0
    requires forall k :: 0 <= k < |values| ==> |values[k]| > index && values[k][index] == 1.0
    ensures BlendAt(values, index) == 1.0
  {
    BlendUniform(values, index, 1.0);
    var d := 0.5 * index as real + 1.0;
    assert 1.0 * 0.5 * index as real + 1.0 == d;
  }

  /** The length condition below is needed: a newer vector too short to reach bar
      `index` adds a 0 term while the divisor still grows, so an all-ones history
      blends to 0.5 at bar 5. */
  lemma ShortVectorDilutes()
    ensures BlendAt([[1.0, 1.0, 1.0, 1.0, 1.0, 1.0, 1.0, 1.0], [1.0]], 5) == 0.5
  {
    var values := [[1.0, 1.0, 1.0, 1.0, 1.0, 1.0, 1.0, 1.0], [1.0]];
    assert Terms(values, 5) == [3.5, 0.0];
    assert Sum([3.5, 0.0]) == 3.5 by {
      assert [3.5, 0.0][..1] == [3.5];
      assert [3.5][..0] == [];
    }
  }

  /** A history of all-ones vectors, none shorter than the oldest, smooths to 1 at
      every position of the convolution, before the ramp. */
  lemma SmoothOfOnes(values: seq<seq<real>>, exp: real -> real, i: nat)
    requires |values| > 0 && Positive(exp) && i + 7 <= |values[0]|
    requires forall k :: 0 <= k < |values| ==> |values[k]| >= |values[0]|
    requires forall k, j :: 0 <= k < |values| && 0 <= j < |values[k]| ==> values[k][j] == 1.0
    ensures WindowMean(Blend(values)[i..i + 7], Kernel(Degree, exp)) == 1.0
  {
    var b := Blend(values);
    forall j | i <= j < i + 7
      ensures b[j] == 1.0
    {
      BlendOfOnes(values, j);
    }
    SmoothedConstantRun(b, Degree, exp, i, 1.0);
  }

  // ---------------------------------------------------------------------------
  // Linear amplitude ramp

  /** The factor `start` has reached at element `k` of `normalize` on a list of
      length `n`: 0.15 plus `k` steps of `(1.5 - 0.15) / n`. */
  function NormalizeFactor(n: nat, k: nat): (f: real)
    requires n > 0
    ensures k == n ==> f == 1.5
  {
    0.15 + k as real * ((1.5 - 0.15) / n as real)
  }

  /** On a list of length `n` the ramp starts at 0.15 and every factor used stays
      below 1.5 (the last one is `1.5 - 1.35 / n`). */
  lemma NormalizeFactorBounds(n: nat, k: nat)
    requires k < n
    ensures NormalizeFactor(n, 0) == 0.15
    ensures 0.15 <= NormalizeFactor(n, k) < 1.5
  {
    var step := (1.5 - 0.15) / n as real;
    assert step > 0.0;
    MulMonotone(0.0, k as real, step);
    MulMonotone(k as real, (n - 1) as real, step);
    assert (n - 1) as real * step == 1.35 - step;
  }

  /** The ramp strictly increases along the list. */
  lemma NormalizeFactorIncreasing(n: nat, k: nat, k': nat)
    requires 0 < n && k < k'
    ensures NormalizeFactor(n, k) < NormalizeFactor(n, k')
  {
    var step := (1.5 - 0.15) / n as real;
    assert step > 0.0;
    MulMonotone(k as real, k' as real, step);
  }

  /** `normalize(sample)`: element `k` scaled by the ramp factor; an empty list
      divides by zero when the step is computed. */
  method Normalize(sample: seq<real>) returns (r: Result<seq<real>>)
    ensures r.Err? <==> |sample| == 0
    ensures r.Err? ==> r.error == ZeroDivisionError
    ensures r.Ok? ==> |r.value| == |sample|
    ensures r.Ok? ==> forall k :: 0 <= k < |sample| ==> r.value[k] == sample[k] * NormalizeFactor(|sample|, k)
  {
    var x := |sample|;
    var start := 0.15;
    if x == 0 {
      return Err(ZeroDivisionError);
    }
    var step := (1.5 - start) / x as real;
    var newSample: seq<real> := [];
    for i := 0 to x
      invariant |newSample| == i
      invariant start == NormalizeFactor(x, i)
      invariant forall k :: 0 <= k < i ==> newSample[k] == sample[k] * NormalizeFactor(x, k)
    {
      newSample := newSample + [sample[i] * start];
      start := start + step;
    }
    r := Ok(newSample);
  }

  /** `smoothListGaussian(sample)` with the default degree 4 (window 7), followed by
      `normalize`: `len(sample) - 7` values, and a division by zero when there are
      none. */
  method SmoothListGaussian(sample: seq<real>, exp: real -> real) returns (r: Result<seq<real>>)
    requires Positive(exp)
    ensures r.Err? <==> |sample| <= 7
    ensures r.Err? ==> r.error == ZeroDivisionError
    ensures r.Ok? ==> |r.value| == |sample| - 7 && forall i :: 0 <= i < |r.value| ==>
      r.value[i] == WindowMean(sample[i..i + 7], Kernel(Degree, exp)) * NormalizeFactor(|r.value|, i)
  {
    var smoothed := GaussianSmooth(sample, Degree, exp);
    r := Normalize(smoothed);
  }

  // ---------------------------------------------------------------------------
  // The smoother

  class Smoother {
    /** `self.values`, a `deque(maxlen=6)`, oldest first. */
    var values: seq<seq<real>>
    /** Every sample ever added, oldest first. */
    ghost var appended: seq<seq<real>>

    /** The deque holds the 6 most recent samples. */
    ghost predicate Valid()
      reads this
    {
      values == LastN(appended, HistoryLen)
    }

    constructor ()
      ensures Valid() && appended == [] && values == []
    {
      values := [];
      appended := [];
    }

    /** `add_sample`: the sample becomes the newest entry; when 6 are already held
        the oldest is evicted; the others keep their order. */
    method AddSample(sample: seq<real>)
      requires Valid()
      modifies this
      ensures Valid() && appended == old(appended) + [sample]
      ensures |values| <= HistoryLen && values[|values| - 1] == sample
      ensures |old(values)| < HistoryLen ==> values == old(values) + [sample]
      ensures |old(values)| == HistoryLen ==> values == old(values)[1..] + [sample]
    {
      BoundedAppendKeepsNewest(appended, sample, HistoryLen);
      BoundedAppendShape(values, sample, HistoryLen);
      values := BoundedAppend(values, sample, HistoryLen);
      appended := appended + [sample];
    }

    /** The inner loop of `get_smooth_sample` for bar `index`: collect the terms in
        `to_be_meaned`, grow `divisor` once per history vector, then divide. */
    method BlendBar(index: nat) returns (x: real)
      requires |values| > 0
      ensures x == BlendAt(values, index)
    {
      var toBeMeaned: seq<real> := [];
      var divisor := 0.0;
      for j := 0 to |values|
        invariant |toBeMeaned| == j
        invariant forall m :: 0 <= m < j ==> toBeMeaned[m] == Term(values[m], index)
        invariant divisor == j as real * (0.5 * index as real + 1.0)
      {
        var item := values[j];
        if |item| > index {
          toBeMeaned := toBeMeaned + [item[index] * 0.5 * index as real + 1.0];
        } else {
          toBeMeaned := toBeMeaned + [0.0];
        }
        divisor := divisor + (0.5 * index as real + 1.0);
      }
      assert toBeMeaned == Terms(values, index);
      x := Sum(toBeMeaned) / divisor;
    }

    /** `get_smooth_sample`: the weighted blend over the history, as long as its
        oldest vector, then `smoothListGaussian` (which normalises). `values[0]`
        raises IndexError on an empty history; the render tick always adds a sample
        first, so that path is not taken by the program. */
    method GetSmoothSample(exp: real -> real) returns (r: Result<seq<real>>)
      requires Positive(exp)
      ensures r.Err? <==> |values| == 0 || |values[0]| <= 7
      ensures r.Err? ==> r.error == if |values| == 0 then IndexError else ZeroDivisionError
      ensures r.Ok? ==> |values| > 0 && |r.value| == |values[0]| - 7 && forall i :: 0 <= i < |r.value| ==>
        r.value[i] == WindowMean(Blend(values)[i..i + 7], Kernel(Degree, exp)) * NormalizeFactor(|r.value|, i)
    {
      if |values| == 0 {
        return Err(IndexError);
      }
      var sample: seq<real> := [];
      for index := 0 to |values[0]|
        invariant |sample| == index
        invariant forall i :: 0 <= i < index ==> sample[i] == BlendAt(values, i)
      {
        var x := BlendBar(index);
        sample := sample + [x];
      }
      assert sample == Blend(values);
      r := SmoothListGaussian(sample, exp);
    }
  }

  // ---------------------------------------------------------------------------
  // Bucket table and reduction

  /** `Visualizer._get_audio_groups(count)` on the 10 Hz grid. Every boundary is a
      power of 11 with exponent above 1, so above 11 Hz, and the scan's quirks never
      fire: each pair is the first grid index above its low and above its high
      boundary, pairs are ordered, and consecutive pairs share their boundary. */
  method GetAudioGroups(count: nat, pow11: real -> real) returns (r: Result<seq<Group>>)
    requires Increasing(pow11) && pow11(1.0) == 11.0
    ensures count == 0 ==> r == Err(ZeroDivisionError)
    ensures count > 0 ==> (r.Err? <==> Boundary(pow11, count, count) >= 23990.0)
    ensures count > 0 && r.Err? ==> r.error == TypeError
    ensures r.Ok? ==> count > 0 && |r.value| == count
    ensures r.Ok? ==> forall k :: 0 <= k < count ==>
      r.value[k].start == FirstAbove(Boundary(pow11, count, k), GridStepHz) &&
      r.value[k].stop == FirstAbove(Boundary(pow11, count, k + 1), GridStepHz) &&
      r.value[k].start <= r.value[k].stop
    ensures r.Ok? ==> forall k :: 0 <= k < count - 1 ==> r.value[k].stop == r.value[k + 1].start
  {
    assert LastGridHz(GridStepHz) == 23990;
    r := BuildAudioGroups(count, GridStepHz, pow11);
    if r.Ok? {
      forall k | 0 <= k < count
        ensures r.value[k].start == FirstAbove(Boundary(pow11, count, k), GridStepHz)
        ensures r.value[k].stop == FirstAbove(Boundary(pow11, count, k + 1), GridStepHz)
        ensures r.value[k].start <= r.value[k].stop
      {
        ExponentIncreasing(count, k, k + 1);
        var lo, hi := Boundary(pow11, count, k), Boundary(pow11, count, k + 1);
        ScanIndicesClean(lo, hi, GridStepHz);
        GroupOrdered(lo, hi, GridStepHz);
      }
    }
  }

  /** The reduction in `update_audio_data`: keep the upper half `Pxx[len(Pxx)//2:]`,
      then for each pair apply `if start <= end: end = start + 1` and take
      `max(Pxx[start:end], default=0)`. Every ordered pair therefore yields the
      single bin at `start` (0 when that is past the end), and a reversed pair an
      empty slice and 0. */
  method ReduceBars(pxx: seq<real>, groups: seq<Group>) returns (bars: seq<real>)
    ensures |bars| == |groups|
    ensures forall k :: 0 <= k < |groups| ==>
      var upper := pxx[|pxx| / 2..];
      bars[k] == if groups[k].start <= groups[k].stop && groups[k].start < |upper|
                 then upper[groups[k].start] else 0.0
  {
    var upper := pxx[|pxx| / 2..];
    var currentSample: seq<real> := [];
    for k := 0 to |groups|
      invariant |currentSample| == k
      invariant forall m :: 0 <= m < k ==>
        currentSample[m] == if groups[m].start <= groups[m].stop && groups[m].start < |upper|
                            then upper[groups[m].start] else 0.0
    {
      var start, end := groups[k].start, groups[k].stop;
      if start <= end {
        end := start + 1;
      }
      currentSample := currentSample + [MaxOr0(Slice(upper, start, end))];
    }
    bars := currentSample;
  }
}

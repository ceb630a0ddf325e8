/** The parts of `Smoother` that the two configurations share: the bounded history
    (`collections.deque(maxlen=cap)`), the Gaussian kernel built in `smoothListGaussian`
    and the valid-range convolution that uses it. `np.exp` is the parameter `exp`. */
module Smoothing {
  import opened Common

  // ---------------------------------------------------------------------------
  // Bounded history

  /** `deque.append` on a deque of capacity `cap` holding `h`: when full, the
      oldest entry goes first. */
  function BoundedAppend<T>(h: seq<T>, x: T, cap: nat): (r: seq<T>)
    requires 0 < cap && |h| <= cap
    ensures |r| == (if |h| < cap then |h| + 1 else cap) && r[|r| - 1] == x
  {
    if |h| < cap then h + [x] else h[1..] + [x]
  }

  /** The last `n` entries of `s` (all of them when there are fewer). */
  function LastN<T>(s: seq<T>, n: nat): (r: seq<T>)
    ensures |r| <= n && |r| <= |s|
  {
    if |s| <= n then s else s[|s| - n..]
  }

  /** A bounded deque always holds the `cap` most recent of all entries ever
      appended to it, oldest first: appending to such a deque keeps it so. */
  lemma BoundedAppendKeepsNewest<T>(s: seq<T>, x: T, cap: nat)
    requires 0 < cap
    ensures BoundedAppend(LastN(s, cap), x, cap) == LastN(s + [x], cap)
  {
    var h := LastN(s, cap);
    if |s| < cap {
      assert h == s;
    } else {
      assert |h| == cap;
      var t := s + [x];
      assert h[1..] + [x] == t[|t| - cap..];
    }
  }

  /** The entries before the new one are the old entries, less the oldest when the
      deque was full. */
  lemma BoundedAppendShape<T>(h: seq<T>, x: T, cap: nat)
    requires 0 < cap && |h| <= cap
    ensures var r := BoundedAppend(h, x, cap);
      r[..|r| - 1] == (if |h| < cap then h else h[1..])
  {
  }

  // ---------------------------------------------------------------------------
  // Gaussian kernel

  /** `np.exp` stands for any function with positive values. */
  ghost predicate Positive(exp: real -> real)
  {
    forall x :: exp(x) > 0.0
  }

  function Window(degree: nat): (n: int)
  {
    degree * 2 - 1
  }

  function Square(x: real): (y: real)
  {
    x * x
  }

  /** Weight `j` of the kernel of half-width `degree`: the offset from the centre is
      `j - degree + 1`, and the weight is `1 / exp((4 * offset / window) ** 2)`. */
  function GaussWeight(degree: nat, exp: real -> real, j: int): (w: real)
    requires degree >= 1 && Positive(exp)
    ensures w > 0.0
  {
    var window := Window(degree);
    var frac := (j - degree + 1) as real / window as real;
    1.0 / exp(Square(4.0 * frac))
  }

  /** The whole kernel: one weight per position of the window. */
  function Kernel(degree: nat, exp: real -> real): (w: seq<real>)
    requires degree >= 1 && Positive(exp)
    ensures |w| == Window(degree)
  {
    seq(Window(degree), j => GaussWeight(degree, exp, j))
  }

  /** Every kernel weight is positive and the kernel is symmetric about its centre. */
  lemma KernelPositiveSymmetric(degree: nat, exp: real -> real)
    requires degree >= 1 && Positive(exp)
    ensures var w := Kernel(degree, exp);
      (forall j :: 0 <= j < |w| ==> w[j] > 0.0) &&
      (forall j :: 0 <= j < |w| ==> w[j] == w[|w| - 1 - j])
  {
    var w := Kernel(degree, exp);
    var window := Window(degree) as real;
    forall j | 0 <= j < |w|
      ensures w[j] == w[|w| - 1 - j]
    {
      var a := (j - degree + 1) as real / window;
      var b := (|w| - 1 - j - degree + 1) as real / window;
      assert (|w| - 1 - j - degree + 1) as real == -((j - degree + 1) as real);
      assert b == -a;
      assert Square(4.0 * b) == Square(4.0 * a);
    }
  }

  /** The loop of `smoothListGaussian` that fills `weightGauss`, multiplied by the
      all-ones `weight` array. */
  method GaussianWeights(degree: nat, exp: real -> real) returns (weight: seq<real>)
    requires degree >= 1 && Positive(exp)
    ensures weight == Kernel(degree, exp)
  {
    var window := degree * 2 - 1;
    var weightGauss: seq<real> := [];
    for i := 0 to window
      invariant |weightGauss| == i
      invariant forall k :: 0 <= k < i ==> weightGauss[k] == GaussWeight(degree, exp, k)
    {
      var offset := i - degree + 1;
      var frac := offset as real / window as real;
      var gauss := 1.0 / exp(Square(4.0 * frac));
      weightGauss := weightGauss + [gauss];
    }
    weight := seq(window, k requires 0 <= k < window => weightGauss[k] * 1.0);
  }

  // ---------------------------------------------------------------------------
  // Weighted means and the valid-range convolution

  /** `sum(np.array(win) * w)`. */
  function WeightedSum(win: seq<real>, w: seq<real>): (r: real)
    requires |win| == |w|
  {
    if |win| == 0 then 0.0
    else WeightedSum(win[..|win| - 1], w[..|w| - 1]) + win[|win| - 1] * w[|w| - 1]
  }

  ghost predicate AllPositive(w: seq<real>)
  {
    forall j :: 0 <= j < |w| ==> w[j] > 0.0
  }

  lemma {:induction false} SumPositive(w: seq<real>)
    requires |w| > 0 && AllPositive(w)
    ensures Sum(w) > 0.0
  {
    if |w| > 1 {
      SumPositive(w[..|w| - 1]);
    }
  }

  /** `sum(np.array(win) * w) / sum(w)`: the mean of `win` under the weights `w`. */
  function WindowMean(win: seq<real>, w: seq<real>): (m: real)
    requires |win| == |w| && |w| > 0 && AllPositive(w)
    ensures (forall j :: 0 <= j < |win| ==> win[j] >= 0.0) ==> m >= 0.0
  {
    SumPositive(w);
    assert (forall j :: 0 <= j < |win| ==> win[j] >= 0.0) ==> WeightedSum(win, w) >= 0.0 by {
      if forall j :: 0 <= j < |win| ==> win[j] >= 0.0 {
        WeightedSumLower(win, w, 0.0);
      }
    }
    WeightedSum(win, w) / Sum(w)
  }

  /** One step of `WeightedSumLower`: adding a weighted value `x * w` with `x >= lo`
      to a weighted sum `ws` of total weight `s` keeps the lower bound. */
  lemma LowerStep(s: real, ws: real, w: real, x: real, lo: real, total: real, wsum: real)
    requires lo * s <= ws && w > 0.0 && lo <= x
    requires total == s + w && wsum == ws + x * w
    ensures lo * total <= wsum
  {
    MulMonotone(lo, x, w);
  }

  /** The same for the upper bound. */
  lemma UpperStep(s: real, ws: real, w: real, x: real, hi: real, total: real, wsum: real)
    requires ws <= hi * s && w > 0.0 && x <= hi
    requires total == s + w && wsum == ws + x * w
    ensures wsum <= hi * total
  {
    MulMonotone(x, hi, w);
  }

  /** Values of at least `lo` under positive weights sum to at least `lo` times the
      total weight. */
  lemma {:induction false} WeightedSumLower(win: seq<real>, w: seq<real>, lo: real)
    requires |win| == |w| && AllPositive(w)
    requires forall j :: 0 <= j < |win| ==> lo <= win[j]
    ensures lo * Sum(w) <= WeightedSum(win, w)
  {
    if |win| > 0 {
      var n := |win| - 1;
      var win', w' := win[..n], w[..n];
      assert AllPositive(w') && forall j :: 0 <= j < |win'| ==> lo <= win'[j] by {
        assert forall j :: 0 <= j < n ==> win'[j] == win[j] && w'[j] == w[j];
      }
      WeightedSumLower(win', w', lo);
      assert w[n] > 0.0 && lo <= win[n];
      LowerStep(Sum(w'), WeightedSum(win', w'), w[n], win[n], lo, Sum(w), WeightedSum(win, w));
    }
  }

  /** Values of at most `hi` under positive weights sum to at most `hi` times the
      total weight. */
  lemma {:induction false} WeightedSumUpper(win: seq<real>, w: seq<real>, hi: real)
    requires |win| == |w| && AllPositive(w)
    requires forall j :: 0 <= j < |win| ==> win[j] <= hi
    ensures WeightedSum(win, w) <= hi * Sum(w)
  {
    if |win| > 0 {
      var n := |win| - 1;
      var win', w' := win[..n], w[..n];
      assert AllPositive(w') && forall j :: 0 <= j < |win'| ==> win'[j] <= hi by {
        assert forall j :: 0 <= j < n ==> win'[j] == win[j] && w'[j] == w[j];
      }
      WeightedSumUpper(win', w', hi);
      assert w[n] > 0.0 && win[n] <= hi;
      UpperStep(Sum(w'), WeightedSum(win', w'), w[n], win[n], hi, Sum(w), WeightedSum(win, w));
    }
  }

  lemma DivBounds(x: real, s: real, lo: real, hi: real)
    requires s > 0.0 && lo * s <= x <= hi * s
    ensures lo <= x / s <= hi
  {
    var m := x / s;
    assert m * s == x;
    if m < lo {
      MulMonotone(m, lo, s);
    }
    if m > hi {
      MulMonotone(hi, m, s);
    }
  }

  /** A weighted mean under positive weights lies between the smallest and the
      largest value of its window. */
  lemma WindowMeanWithin(win: seq<real>, w: seq<real>)
    requires |win| == |w| && |w| > 0 && AllPositive(w)
    ensures SeqMin(win) <= WindowMean(win, w) <= SeqMax(win)
  {
    WeightedSumLower(win, w, SeqMin(win));
    WeightedSumUpper(win, w, SeqMax(win));
    SumPositive(w);
    DivBounds(WeightedSum(win, w), Sum(w), SeqMin(win), SeqMax(win));
  }

  /** A constant window is left unchanged by the weighted mean. */
  lemma WindowMeanConstant(win: seq<real>, w: seq<real>, c: real)
    requires |win| == |w| && |w| > 0 && AllPositive(w)
    requires forall j :: 0 <= j < |win| ==> win[j] == c
    ensures WindowMean(win, w) == c
  {
    WindowMeanWithin(win, w);
  }

  /** The body of `smoothListGaussian` after the kernel is built: a list of
      `len(sample) - window` zeros (empty when that is not positive) whose entry `i`
      becomes the weighted mean of `sample[i:i+window]`. The last complete window,
      starting at `len(sample) - window`, is not computed. */
  method Convolve(sample: seq<real>, weight: seq<real>) returns (smoothed: seq<real>)
    requires |weight| > 0 && AllPositive(weight)
    ensures |smoothed| == if |sample| > |weight| then |sample| - |weight| else 0
    ensures forall i :: 0 <= i < |smoothed| ==>
      smoothed[i] == WindowMean(sample[i..i + |weight|], weight)
  {
    var window := |weight|;
    var n := if |sample| > window then |sample| - window else 0;
    var a := new real[n](_ => 0.0);
    SumPositive(weight);
    for i := 0 to n
      invariant forall k :: 0 <= k < i ==> a[k] == WindowMean(sample[k..k + window], weight)
    {
      a[i] := WeightedSum(sample[i..i + window], weight) / Sum(weight);
    }
    smoothed := a[..];
  }

  /** `smoothListGaussian(sample, degree)`: build the kernel, then convolve. */
  method GaussianSmooth(sample: seq<real>, degree: nat, exp: real -> real) returns (smoothed: seq<real>)
    requires degree >= 1 && Positive(exp)
    ensures var window := Window(degree);
      |smoothed| == (if |sample| > window then |sample| - window else 0) &&
      forall i :: 0 <= i < |smoothed| ==>
        smoothed[i] == WindowMean(sample[i..i + window], Kernel(degree, exp))
  {
    var weight := GaussianWeights(degree, exp);
    KernelPositiveSymmetric(degree, exp);
    smoothed := Convolve(sample, weight);
  }

  /** Every smoothed value lies between the extremes of its window. */
  lemma SmoothedValueBounds(sample: seq<real>, degree: nat, exp: real -> real, i: nat)
    requires degree >= 1 && Positive(exp) && i + Window(degree) <= |sample|
    ensures var win := sample[i..i + Window(degree)];
      SeqMin(win) <= WindowMean(win, Kernel(degree, exp)) <= SeqMax(win)
  {
    KernelPositiveSymmetric(degree, exp);
    WindowMeanWithin(sample[i..i + Window(degree)], Kernel(degree, exp));
  }

  /** A constant run of the sample, as long as the window, stays that constant. */
  lemma SmoothedConstantRun(sample: seq<real>, degree: nat, exp: real -> real, i: nat, c: real)
    requires degree >= 1 && Positive(exp) && i + Window(degree) <= |sample|
    requires forall j :: i <= j < i + Window(degree) ==> sample[j] == c
    ensures WindowMean(sample[i..i + Window(degree)], Kernel(degree, exp)) == c
  {
    KernelPositiveSymmetric(degree, exp);
    WindowMeanConstant(sample[i..i + Window(degree)], Kernel(degree, exp), c);
  }
}

/** `_get_audio_groups`: the table of index pairs that maps each bar to a slice of the
    positive half of the spectrum. Both configurations share the algorithm and differ
    only in the step of the Hz grid `range(0, 24000, stepHz)`. `11 ** x` is the
    parameter `pow11`. */
module Bucketing {
  import opened Common

  /** One entry `(start, end + 1)` of the table. */
  datatype Group = Group(start: nat, stop: nat)

  /** The grid `range(0, 24000, stepHz)` lies below this many Hz. */
  const GridLimitHz: nat := 24000

  /** `len(range(0, 24000, stepHz))`; entry `j` of the grid is `j * stepHz`. */
  function GridLen(stepHz: nat): (n: nat)
    requires stepHz > 0
    ensures n > 0
  {
    (GridLimitHz + stepHz - 1) / stepHz
  }

  /** Entry `j` is in the grid exactly when `j * stepHz < 24000`. */
  lemma GridLenBounds(stepHz: nat)
    requires 0 < stepHz <= 8000
    ensures (GridLen(stepHz) - 1) * stepHz < GridLimitHz <= GridLen(stepHz) * stepHz
    ensures GridLen(stepHz) >= 3
  {
    var a := GridLimitHz + stepHz - 1;
    var q, r := a / stepHz, a % stepHz;
    assert a == q * stepHz + r && 0 <= r < stepHz;
    assert (q - 1) * stepHz == q * stepHz - stepHz;
  }

  /** The largest value of the grid. */
  function LastGridHz(stepHz: nat): (hz: int)
    requires stepHz > 0
  {
    (GridLen(stepHz) - 1) * stepHz
  }

  /** Index of the first grid value strictly above `x` (in closed form). It may be
      `GridLen(stepHz)` or more, meaning that no grid value is above `x`. */
  function FirstAbove(x: real, stepHz: nat): (j: nat)
    requires stepHz > 0
  {
    if x < 0.0 then 0 else (x / stepHz as real).Floor + 1
  }

  /** `FirstAbove` is the least index whose grid value exceeds `x`: a grid value
      exceeds `x` exactly when its index is at least `FirstAbove(x)`. */
  lemma FirstAboveIsLeast(x: real, stepHz: nat, j: nat)
    requires stepHz > 0
    ensures (j * stepHz) as real > x <==> j >= FirstAbove(x, stepHz)
  {
    var s := stepHz as real;
    assert (j * stepHz) as real == j as real * s;
    if x >= 0.0 {
      var q := x / s;
      var f := q.Floor;
      assert f as real <= q < f as real + 1.0;
      assert q * s == x;
      if j >= f + 1 {
        assert j as real > q;
        MulMonotone(q, j as real, s);
        assert x < j as real * s;
      } else {
        assert j as real <= q;
        MulMonotone(j as real, q, s);
        assert j as real * s <= x;
      }
    }
  }

  lemma FirstAboveMonotone(x: real, y: real, stepHz: nat)
    requires stepHz > 0 && x <= y
    ensures FirstAbove(x, stepHz) <= FirstAbove(y, stepHz)
  {
    FirstAboveIsLeast(x, stepHz, FirstAbove(y, stepHz));
    FirstAboveIsLeast(y, stepHz, FirstAbove(y, stepHz));
  }

  /** No grid value exceeds `x` exactly when `x` is at least the last grid value. */
  lemma FirstAbovePastGrid(x: real, stepHz: nat)
    requires 0 < stepHz <= 8000
    ensures FirstAbove(x, stepHz) >= GridLen(stepHz) <==> x >= LastGridHz(stepHz) as real
  {
    GridLenBounds(stepHz);
    FirstAboveIsLeast(x, stepHz, GridLen(stepHz) - 1);
  }

  /** The `start` the scan ends with: `not start` also holds for `start == 0`, so an
      index 0 (possible only when `lo < 0`) is overwritten by 1 on the next step. */
  function StartIndex(lo: real, stepHz: nat): (s: nat)
    requires stepHz > 0
    ensures s > 0
  {
    var k := FirstAbove(lo, stepHz);
    if k == 0 then 1 else k
  }

  /** The `end + 1` the scan ends with: `end == 0` is falsy too, so when the first
      value above `hi` has index 1 the scan moves on to index 2 and `end` becomes 1;
      an `end` of -1 (when `hi < 0`) is truthy and stays. */
  function StopIndex(hi: real, stepHz: nat): (s: nat)
    requires stepHz > 0
    ensures s != 1
  {
    var k := FirstAbove(hi, stepHz);
    if k == 1 then 2 else k
  }

  /** Away from the bottom of the grid the scan finds exactly the first grid values
      above `lo` and above `hi`. */
  lemma ScanIndicesClean(lo: real, hi: real, stepHz: nat)
    requires stepHz > 0 && lo >= 0.0 && hi >= stepHz as real
    ensures StartIndex(lo, stepHz) == FirstAbove(lo, stepHz) >= 1
    ensures StopIndex(hi, stepHz) == FirstAbove(hi, stepHz) >= 2
  {
    FirstAboveIsLeast(lo, stepHz, 0);
    FirstAboveIsLeast(hi, stepHz, 1);
  }

  /** The inner loop of `_get_audio_groups` for one range `(lo, hi)`: scan the grid,
      set `start` to the index of a value above `lo` and `end` to one less than the
      index of a value above `hi`, each only while it is still falsy, then append
      `(start, end + 1)`; `end + 1` raises TypeError when `end` is still `None`.
      `audio_range.index(item)` is the loop index, the grid having no repeats. */
  method ScanRange(lo: real, hi: real, stepHz: nat) returns (r: Result<Group>)
    requires 0 < stepHz <= 8000 && lo <= hi
    ensures r.Err? <==> hi >= LastGridHz(stepHz) as real
    ensures r.Err? ==> r.error == TypeError
    ensures r.Ok? ==> r.value == Group(StartIndex(lo, stepHz), StopIndex(hi, stepHz))
  {
    var n := GridLen(stepHz);
    GridLenBounds(stepHz);
    FirstAbovePastGrid(hi, stepHz);
    FirstAboveMonotone(lo, hi, stepHz);
    ghost var kLo, kHi := FirstAbove(lo, stepHz), FirstAbove(hi, stepHz);
    var start: Option<int> := None;
    var end: Option<int> := None;
    var j := 0;
    while j < n
      invariant 0 <= j <= n
      invariant j <= kLo ==> start.None?
      invariant kLo == 0 && j == 1 ==> start == Some(0)
      invariant kLo == 0 && j >= 2 ==> start == Some(1)
      invariant 0 < kLo < j ==> start == Some(kLo)
      invariant j <= kHi ==> end.None?
      invariant kHi == 0 && j >= 1 ==> end == Some(-1)
      invariant kHi == 1 && j == 2 ==> end == Some(0)
      invariant kHi == 1 && j >= 3 ==> end == Some(1)
      invariant 1 < kHi < j ==> end == Some(kHi - 1)
    {
      var item := j * stepHz;
      FirstAboveIsLeast(lo, stepHz, j);
      FirstAboveIsLeast(hi, stepHz, j);
      if (start.None? || start.value == 0) && item as real > lo {
        start := Some(j);
      }
      if (end.None? || end.value == 0) && item as real > hi {
        end := Some(j - 1);
      }
      j := j + 1;
    }
    if end.None? {
      r := Err(TypeError);
    } else {
      r := Ok(Group(start.value, end.value + 1));
    }
  }

  /** `1 + (k + 1) * step` with `step = (4 - 1) / count`: the running sum that builds
      `powers`, written out. */
  function Exponent(count: nat, k: nat): (e: real)
    requires count > 0
    ensures k + 1 == count ==> e == 4.0
  {
    1.0 + (k + 1) as real * (3.0 / count as real)
  }

  lemma ExponentIncreasing(count: nat, k: nat, k': nat)
    requires count > 0 && k < k'
    ensures 1.0 < Exponent(count, k) < Exponent(count, k')
  {
    var step := 3.0 / count as real;
    assert step > 0.0;
    MulMonotone((k + 1) as real, (k' + 1) as real, step);
    MulMonotone(1.0, (k + 1) as real, step);
  }

  /** `11 ** x` stands for any strictly increasing function. */
  ghost predicate Increasing(f: real -> real)
  {
    forall x, y :: x < y ==> f(x) < f(y)
  }

  /** The Hz boundary `11 ** powers[k]`. */
  function Boundary(pow11: real -> real, count: nat, k: nat): (hz: real)
    requires count > 0
  {
    pow11(Exponent(count, k))
  }

  lemma BoundaryIncreasing(pow11: real -> real, count: nat, k: nat, k': nat)
    requires count > 0 && k < k' && Increasing(pow11)
    ensures Boundary(pow11, count, k) < Boundary(pow11, count, k')
  {
    ExponentIncreasing(count, k, k');
  }

  /** `_get_audio_groups(count)` on the grid of step `stepHz`: `count + 1` exponents,
      `count` ranges between consecutive powers of 11, one scan per range. A count of
      0 divides by zero; otherwise it fails exactly when the highest boundary is not
      below the last grid value. */
  method BuildAudioGroups(count: nat, stepHz: nat, pow11: real -> real) returns (r: Result<seq<Group>>)
    requires 0 < stepHz <= 8000 && Increasing(pow11)
    ensures count == 0 ==> r == Err(ZeroDivisionError)
    ensures count > 0 ==> (r.Err? <==> Boundary(pow11, count, count) >= LastGridHz(stepHz) as real)
    ensures count > 0 && r.Err? ==> r.error == TypeError
    ensures r.Ok? ==> count > 0 && |r.value| == count
    ensures r.Ok? ==> forall k :: 0 <= k < count ==>
      r.value[k] == Group(StartIndex(Boundary(pow11, count, k), stepHz),
                          StopIndex(Boundary(pow11, count, k + 1), stepHz))
  {
    if count == 0 {
      return Err(ZeroDivisionError);
    }
    var step := (4.0 - 1.0) / count as real;
    var powers := [1.0 + step];
    for i := 0 to count
      invariant |powers| == i + 1
      invariant forall k :: 0 <= k <= i ==> powers[k] == Exponent(count, k)
    {
      powers := powers + [powers[|powers| - 1] + step];
    }
    var frequencyRanges: seq<(real, real)> := [];
    for k := 0 to count
      invariant |frequencyRanges| == k
      invariant forall m :: 0 <= m < k ==>
        frequencyRanges[m] == (Boundary(pow11, count, m), Boundary(pow11, count, m + 1))
    {
      frequencyRanges := frequencyRanges + [(pow11(powers[k]), pow11(powers[k + 1]))];
    }
    var groups: seq<Group> := [];
    for k := 0 to count
      invariant |groups| == k
      invariant forall m :: 0 <= m < k ==>
        groups[m] == Group(StartIndex(frequencyRanges[m].0, stepHz), StopIndex(frequencyRanges[m].1, stepHz))
      invariant k > 0 ==> frequencyRanges[k - 1].1 < LastGridHz(stepHz) as real
    {
      var lo, hi := frequencyRanges[k].0, frequencyRanges[k].1;
      BoundaryIncreasing(pow11, count, k, k + 1);
      var g := ScanRange(lo, hi, stepHz);
      if g.Err? {
        if k + 1 < count {
          BoundaryIncreasing(pow11, count, k + 1, count);
        }
        return Err(TypeError);
      }
      groups := groups + [g.value];
    }
    r := Ok(groups);
  }

  /** Every entry of the table satisfies `start <= end + 1` once the boundaries are
      non-negative: `start` is at most the first grid value above `lo`, and `end + 1`
      is at least the first grid value above `hi`. */
  lemma GroupOrdered(lo: real, hi: real, stepHz: nat)
    requires stepHz > 0 && 0.0 <= lo <= hi
    ensures StartIndex(lo, stepHz) <= StopIndex(hi, stepHz)
  {
    FirstAboveMonotone(lo, hi, stepHz);
    FirstAboveIsLeast(lo, stepHz, 0);
  }
}

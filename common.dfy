/** Values and sequence helpers shared by the whole model: the Python exceptions the
    pipeline can raise, an Option as used for `None`-initialised variables, and the
    built-ins `sum`, `max` and list slicing as they behave on the lists involved. */
module Common {

  /** The Python exceptions the modelled code can raise. */
  datatype Error =
    | ZeroDivisionError  // a float division by zero
    | TypeError          // arithmetic on `None`
    | ValueError         // `max` of an empty sequence with no default
    | IndexError         // indexing a list or deque past its end
    | StructError        // `struct.unpack` on a buffer of the wrong size

  datatype Result<T> = Ok(value: T) | Err(error: Error)

  datatype Option<T> = None | Some(value: T)

  /** Python's `sum` over a list of numbers, adding from the left. */
  function Sum(s: seq<real>): (r: real)
  {
    if |s| == 0 then 0.0 else Sum(s[..|s| - 1]) + s[|s| - 1]
  }

  /** Summing `n` copies of `c` gives `n * c`. */
  lemma {:induction false} SumConstant(s: seq<real>, c: real)
    requires forall k :: 0 <= k < |s| ==> s[k] == c
    ensures Sum(s) == (|s| as real) * c
  {
    if |s| > 0 {
      SumConstant(s[..|s| - 1], c);
    }
  }

  /** Largest element of a non-empty sequence (Python's `max`). */
  function SeqMax(s: seq<real>): (m: real)
    requires |s| > 0
    ensures forall k :: 0 <= k < |s| ==> s[k] <= m
    ensures exists k :: 0 <= k < |s| && s[k] == m
  {
    if |s| == 1 then s[0]
    else
      var m' := SeqMax(s[..|s| - 1]);
      assert forall k :: 0 <= k < |s| - 1 ==> s[k] == s[..|s| - 1][k];
      if s[|s| - 1] > m' then s[|s| - 1] else m'
  }

  /** Smallest element of a non-empty sequence (Python's `min`). */
  function SeqMin(s: seq<real>): (m: real)
    requires |s| > 0
    ensures forall k :: 0 <= k < |s| ==> m <= s[k]
    ensures exists k :: 0 <= k < |s| && s[k] == m
  {
    if |s| == 1 then s[0]
    else
      var m' := SeqMin(s[..|s| - 1]);
      assert forall k :: 0 <= k < |s| - 1 ==> s[k] == s[..|s| - 1][k];
      if s[|s| - 1] < m' then s[|s| - 1] else m'
  }

  /** `max(s, default=0)`. */
  function MaxOr0(s: seq<real>): (m: real)
    ensures |s| == 0 ==> m == 0.0
    ensures |s| == 1 ==> m == s[0]
    ensures |s| > 0 ==> (exists k :: 0 <= k < |s| && s[k] == m) && forall k :: 0 <= k < |s| ==> s[k] <= m
  {
    if |s| == 0 then 0.0 else SeqMax(s)
  }

  /** Python's slice `s[a:b]` for non-negative bounds: both bounds are clamped to the
      length, and a start past the stop gives the empty list. */
  function Slice<T>(s: seq<T>, a: nat, b: nat): (r: seq<T>)
    ensures a < b && b <= |s| ==> r == s[a..b]
    ensures |r| == if a < b && a < |s| then (if b <= |s| then b else |s|) - a else 0
    ensures forall k :: 0 <= k < |r| ==> r[k] == s[a + k]
  {
    var lo := if a <= |s| then a else |s|;
    var hi := if b <= |s| then b else |s|;
    if lo <= hi then s[lo..hi] else []
  }

  /** Python's `2**i` for a non-negative integer exponent. */
  function Pow2(i: nat): (p: nat)
    ensures p >= 1
  {
    if i == 0 then 1 else 2 * Pow2(i - 1)
  }

  /** Multiplying by a positive number keeps (strict) order. */
  lemma MulMonotone(a: real, b: real, c: real)
    requires a <= b && c > 0.0
    ensures a * c <= b * c
    ensures a < b ==> a * c < b * c
  {
  }

  /** A common non-zero factor cancels in a quotient: `(n * c) / (n * d) == c / d`. */
  lemma DivCancel(x: real, n: real, c: real, d: real)
    requires x == n * c && n != 0.0 && d != 0.0
    ensures x / (n * d) == c / d
  {
    var q := c / d;
    assert q * d == c;
    assert q * (n * d) == n * c;
  }

  /** Summing `s[k] * a + b` over `s` gives `a * Sum(s) + |s| * b`. */
  lemma {:induction false} SumAffine(s: seq<real>, t: seq<real>, a: real, b: real)
    requires |s| == |t|
    requires forall k :: 0 <= k < |s| ==> t[k] == s[k] * a + b
    ensures Sum(t) == a * Sum(s) + (|s| as real) * b
  {
    if |s| > 0 {
      var n := |s| - 1;
      SumAffine(s[..n], t[..n], a, b);
      assert a * (Sum(s[..n]) + s[n]) == a * Sum(s[..n]) + a * s[n];
    }
  }
}

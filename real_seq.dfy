/** Element-wise helpers over sampled curves: the reductions and vectorised
    arithmetic that the scripts take from NumPy (`min`, `max`, `a - b`,
    `a + c`, `a / c`), with float64 abstracted to `real`. */
module RealSeq {

  /** The smallest sample of a non-empty curve (NumPy `ndarray.min`). */
  function Min(s: seq<real>): (m: real)
    requires |s| > 0
    ensures forall k :: 0 <= k < |s| ==> m <= s[k]
    ensures exists k :: 0 <= k < |s| && s[k] == m
  {
    if |s| == 1 then s[0]
    else
      var rest := Min(s[1..]);
      assert forall k :: 1 <= k < |s| ==> s[k] == s[1..][k - 1];
      if s[0] <= rest then s[0] else rest
  }

  /** The largest sample of a non-empty curve (NumPy `ndarray.max`). */
  function Max(s: seq<real>): (m: real)
    requires |s| > 0
    ensures forall k :: 0 <= k < |s| ==> s[k] <= m
    ensures exists k :: 0 <= k < |s| && s[k] == m
  {
    if |s| == 1 then s[0]
    else
      var rest := Max(s[1..]);
      assert forall k :: 1 <= k < |s| ==> s[k] == s[1..][k - 1];
      if s[0] >= rest then s[0] else rest
  }

  /** A lower bound that is attained is the minimum. */
  lemma MinUnique(s: seq<real>, m: real, j: nat)
    requires j < |s| && s[j] == m
    requires forall k :: 0 <= k < |s| ==> m <= s[k]
    ensures Min(s) == m
  {
    var w :| 0 <= w < |s| && s[w] == Min(s);
    assert m <= s[w] && Min(s) <= s[j];
  }

  /** An upper bound that is attained is the maximum. */
  lemma MaxUnique(s: seq<real>, m: real, j: nat)
    requires j < |s| && s[j] == m
    requires forall k :: 0 <= k < |s| ==> s[k] <= m
    ensures Max(s) == m
  {
    var w :| 0 <= w < |s| && s[w] == Max(s);
    assert s[w] <= m && s[j] <= Max(s);
  }

  /** Element-wise difference `a - b` of two curves of one length. */
  function Sub(a: seq<real>, b: seq<real>): (d: seq<real>)
    requires |a| == |b|
    ensures |d| == |a|
    ensures forall k :: 0 <= k < |d| ==> d[k] + b[k] == a[k]
  {
    seq(|a|, k requires 0 <= k < |a| => a[k] - b[k])
  }

  /** The curve `s + c`: every sample raised by the same amount `c`. */
  function Shift(s: seq<real>, c: real): (r: seq<real>)
    ensures |r| == |s|
    ensures forall k :: 0 <= k < |r| ==> r[k] - s[k] == c
  {
    seq(|s|, k requires 0 <= k < |s| => s[k] + c)
  }

  /** The curve `s / c` for a positive divisor `c`. */
  function Divide(s: seq<real>, c: real): (r: seq<real>)
    requires c > 0.0
    ensures |r| == |s|
    ensures forall k :: 0 <= k < |r| ==> r[k] * c == s[k]
  {
    seq(|s|, k requires 0 <= k < |s| => s[k] / c)
  }

  /** `a` is `b` moved up or down as a whole: every sample of `a` differs
      from the sample of `b` at the same index by one common amount, so
      the differences between samples of `b` are kept. */
  ghost predicate IsShiftOf(a: seq<real>, b: seq<real>)
  {
    |a| == |b| && forall k :: 0 <= k < |a| ==> a[k] - b[k] == a[0] - b[0]
  }

  /** Vertical distance between the highest and the lowest sample. */
  function Range(s: seq<real>): (r: real)
    requires |s| > 0
    ensures r >= 0.0
  {
    Max(s) - Min(s)
  }
}

/** `stack_by_percent` of plot_utils.py: the vertical offset that raises one
    curve above a reference curve so that the two do not overlap in a plot. */
module PlotUtils {
  import opened RealSeq

  /** Raises `y1` so that its lowest point relative to `y0` sits `percent`
      per cent of `y0`'s range above `y0`; `StackShift` and `StackGap` state
      what the raised curve is. Two curves that are equal sample by sample
      (two empty curves among them) give `y1` back unchanged. */
  function StackByPercent(y0: seq<real>, y1: seq<real>, percent: real := 10.0): (y1n: seq<real>)
    requires |y0| == |y1|
    ensures |y1n| == |y1|
    ensures y0 == y1 ==> y1n == y1
  {
    if y0 == y1 then y1
    else
      assert |y0| > 0;
      var delta0 := Min(Sub(y1, y0));
      var delta1 := Gap(y0, percent);
      Shift(Shift(y1, -delta0), delta1)
  }

  /** When the curves differ, every sample of `y1` moves by the same
      amount, `delta1 - delta0`, so the shape of `y1` is kept. */
  lemma StackShift(y0: seq<real>, y1: seq<real>, percent: real)
    requires |y0| == |y1| && y0 != y1
    ensures |y0| > 0
    ensures IsShiftOf(StackByPercent(y0, y1, percent), y1)
    ensures StackByPercent(y0, y1, percent)[0] - y1[0] == Gap(y0, percent) - Min(Sub(y1, y0))
  {
    var delta0 := Min(Sub(y1, y0));
    var y1m := Shift(y1, -delta0);
    var y1n := Shift(y1m, Gap(y0, percent));
    assert y1n == StackByPercent(y0, y1, percent);
    forall k | 0 <= k < |y1n|
      ensures y1n[k] - y1[k] == Gap(y0, percent) - delta0
    {
      assert y1n[k] - y1[k] == (y1n[k] - y1m[k]) + (y1m[k] - y1[k]);
    }
  }

  /** When the curves differ, the smallest gap `y1n[k] - y0[k]` between
      the raised curve and the reference is exactly `percent / 100` of
      `max(y0) - min(y0)`. */
  lemma StackGap(y0: seq<real>, y1: seq<real>, percent: real)
    requires |y0| == |y1| && y0 != y1
    ensures |y0| > 0
    ensures Min(Sub(StackByPercent(y0, y1, percent), y0)) == Gap(y0, percent)
  {
    StackShift(y0, y1, percent);
    MinSubOfShift(y0, y1, StackByPercent(y0, y1, percent));
  }

  /** The gap `stack_by_percent` leaves between the two curves:
      `percent` per cent of the reference's range. */
  function Gap(y0: seq<real>, percent: real): (g: real)
    requires |y0| > 0
    ensures percent >= 0.0 ==> g >= 0.0
  {
    Range(y0) * percent / 100.0
  }

  /** Moving the raised curve by `c` moves its smallest gap to the
      reference by the same `c`. */
  lemma MinSubOfShift(y0: seq<real>, y1: seq<real>, z: seq<real>)
    requires |y0| == |y1| > 0
    requires IsShiftOf(z, y1)
    ensures Min(Sub(z, y0)) == Min(Sub(y1, y0)) + (z[0] - y1[0])
  {
    var c := z[0] - y1[0];
    var d, e := Sub(y1, y0), Sub(z, y0);
    var j :| 0 <= j < |d| && d[j] == Min(d);
    forall k | 0 <= k < |e|
      ensures Min(d) + c <= e[k]
    {
      assert e[k] == d[k] + c;
    }
    assert e[j] == Min(d) + c;
    MinUnique(e, Min(d) + c, j);
  }

  /** With a non-negative percentage the raised curve never dips below the
      reference: at every index it is at least as high as `y0`. */
  lemma StackAbove(y0: seq<real>, y1: seq<real>, percent: real)
    requires |y0| == |y1|
    requires percent >= 0.0
    ensures forall k :: 0 <= k < |y0| ==> StackByPercent(y0, y1, percent)[k] >= y0[k]
  {
    var y1n := StackByPercent(y0, y1, percent);
    if y0 != y1 {
      StackGap(y0, y1, percent);
      var d := Sub(y1n, y0);
      forall k | 0 <= k < |y0|
        ensures y1n[k] >= y0[k]
      {
        assert Min(d) <= d[k];
      }
    }
  }

  /** The contract of `StackByPercent` determines its result: any curve
      that is `y1` moved as a whole and that sits exactly `percent` per cent
      of `y0`'s range above `y0` is the stacked curve. */
  lemma StackUnique(y0: seq<real>, y1: seq<real>, percent: real, z: seq<real>)
    requires |y0| == |y1| && y0 != y1
    requires IsShiftOf(z, y1)
    requires Min(Sub(z, y0)) == Gap(y0, percent)
    ensures z == StackByPercent(y0, y1, percent)
  {
    var y1n := StackByPercent(y0, y1, percent);
    StackShift(y0, y1, percent);
    MinSubOfShift(y0, y1, z);
    assert z[0] - y1[0] == y1n[0] - y1[0];
    forall k | 0 <= k < |z|
      ensures z[k] == y1n[k]
    {
      assert z[k] - y1[k] == z[0] - y1[0];
      assert y1n[k] - y1[k] == y1n[0] - y1[0];
    }
  }

  /** Stacking an already stacked curve onto the same reference with the
      same percentage changes nothing: its gap is already exact. */
  lemma StackIdempotent(y0: seq<real>, y1: seq<real>, percent: real)
    requires |y0| == |y1|
    ensures StackByPercent(y0, StackByPercent(y0, y1, percent), percent)
            == StackByPercent(y0, y1, percent)
  {
    var y1n := StackByPercent(y0, y1, percent);
    if y0 != y1 && y0 != y1n {
      StackGap(y0, y1, percent);
      StackUnique(y0, y1n, percent, y1n);
    }
  }
}

/** The stacking loop shared by `plot_xrd`, `plot_ftir` and `plot_uvvis`:
    every curve is raised onto the curve emitted just before it, and the
    raised curve becomes the reference for the next one. */
module Stacking {
  import opened RealSeq
  import opened PlotUtils
  import opened Figure

  /** All curves of a data set have y arrays of one length, so that each
      can be stacked onto any other. */
  ghost predicate Uniform(data: seq<Curve>)
  {
    forall i :: 0 <= i < |data| ==> |data[i].y| == |data[0].y|
  }

  /** The reference the loop holds when it reaches curve `i`: the first
      curve to begin with, then the curve emitted last. */
  function RefAt(data: seq<Curve>, percent: real, i: nat): (ref: seq<real>)
    requires Uniform(data) && i < |data|
    ensures |ref| == |data[0].y|
  {
    if i == 0 then data[0].y
    else StackByPercent(RefAt(data, percent, i - 1), data[i - 1].y, percent)
  }

  /** What the whole loop emits: each curve, with its own x values and
      label, stacked onto the reference held when the loop reaches it. */
  function Stacked(data: seq<Curve>, percent: real): (r: seq<Curve>)
    requires Uniform(data)
    ensures |r| == |data|
    ensures forall i :: 0 <= i < |r| ==> r[i].x == data[i].x && r[i].name == data[i].name
  {
    seq(|data|, i requires 0 <= i < |data| => StackedCurve(data, percent, i))
  }

  /** Curve `i` stacked onto the reference held when the loop reaches it. */
  function StackedCurve(data: seq<Curve>, percent: real, i: nat): (c: Curve)
    requires Uniform(data) && i < |data|
    ensures c.x == data[i].x && c.name == data[i].name
  {
    Curve(data[i].x, StackByPercent(RefAt(data, percent, i), data[i].y, percent), data[i].name)
  }

  lemma StackedIndex(data: seq<Curve>, percent: real, i: nat)
    requires Uniform(data) && i < |data|
    ensures Stacked(data, percent)[i] == StackedCurve(data, percent, i)
    ensures Stacked(data, percent)[i].y == StackByPercent(RefAt(data, percent, i), data[i].y, percent)
  {
  }

  /** The curve emitted before curve `i` is the reference for curve `i`. */
  lemma StackedRef(data: seq<Curve>, percent: real, i: nat)
    requires Uniform(data) && 0 < i < |data|
    ensures Stacked(data, percent)[i - 1].y == RefAt(data, percent, i)
  {
    var prev := RefAt(data, percent, i - 1);
    StackedIndex(data, percent, i - 1);
    assert StackedCurve(data, percent, i - 1).y == StackByPercent(prev, data[i - 1].y, percent);
    assert RefAt(data, percent, i) == StackByPercent(prev, data[i - 1].y, percent);
  }

  /** The first curve is emitted unchanged: stacked onto itself it goes
      through the identity branch of `stack_by_percent`. */
  lemma StackedFirst(data: seq<Curve>, percent: real)
    requires Uniform(data) && data != []
    ensures Stacked(data, percent)[0] == data[0]
  {
  }

  /** Every later curve is stacked onto the one emitted before it, with
      the same percentage, and nothing else decides its samples. */
  lemma StackedStep(data: seq<Curve>, percent: real, i: nat)
    requires Uniform(data)
    requires 0 < i < |data|
    ensures Stacked(data, percent)[i].y
            == StackByPercent(Stacked(data, percent)[i - 1].y, data[i].y, percent)
  {
    StackedRef(data, percent, i);
  }

  /** Curve `i` of the fold is curve `i` of the input, with its own x
      values and label, stacked onto the reference the loop holds at that
      point: the first input curve, then the curve emitted last. */
  lemma StackedAt(data: seq<Curve>, percent: real, i: nat, ref: seq<real>)
    requires Uniform(data) && i < |data|
    requires i == 0 ==> ref == data[0].y
    requires i > 0 ==> ref == Stacked(data, percent)[i - 1].y
    ensures |ref| == |data[i].y|
    ensures Stacked(data, percent)[i] == Curve(data[i].x, StackByPercent(ref, data[i].y, percent), data[i].name)
  {
    if i > 0 {
      StackedRef(data, percent, i);
    }
  }

  /** Each emitted curve is its input curve moved up or down as a whole:
      the shape of every curve is kept. */
  lemma StackedShape(data: seq<Curve>, percent: real, i: nat)
    requires Uniform(data)
    requires i < |data|
    ensures IsShiftOf(Stacked(data, percent)[i].y, data[i].y)
  {
    if i > 0 {
      StackedStep(data, percent, i);
    }
  }

  /** With a non-negative percentage no emitted curve dips below the one
      emitted before it, and each sits exactly `percent` per cent of the
      previous curve's range above it unless the two input curves were
      already equal. */
  lemma StackedSeparation(data: seq<Curve>, percent: real, i: nat)
    requires Uniform(data)
    requires 0 < i < |data|
    ensures var r := Stacked(data, percent);
            percent >= 0.0 ==> forall k :: 0 <= k < |r[i].y| ==> r[i].y[k] >= r[i - 1].y[k]
    ensures var r := Stacked(data, percent);
            r[i - 1].y != data[i].y ==>
              |r[i].y| > 0 && Min(Sub(r[i].y, r[i - 1].y)) == Gap(r[i - 1].y, percent)
    ensures var r := Stacked(data, percent);
            r[i - 1].y == data[i].y ==> r[i].y == data[i].y
  {
    var r := Stacked(data, percent);
    var prev, y := r[i - 1].y, data[i].y;
    StackedStep(data, percent, i);
    Separated(prev, y, r[i].y, percent);
  }

  /** What `StackAbove` and `StackGap` say of one stacked curve `z`. */
  lemma Separated(y0: seq<real>, y1: seq<real>, z: seq<real>, percent: real)
    requires |y0| == |y1| && z == StackByPercent(y0, y1, percent)
    ensures percent >= 0.0 ==> forall k :: 0 <= k < |z| ==> z[k] >= y0[k]
    ensures y0 != y1 ==> |z| > 0 && Min(Sub(z, y0)) == Gap(y0, percent)
    ensures y0 == y1 ==> z == y1
  {
    if percent >= 0.0 {
      StackAbove(y0, y1, percent);
    }
    if y0 != y1 {
      StackGap(y0, y1, percent);
    }
  }

  /** The emitted curves all have the length of the input curves. */
  lemma StackedUniform(data: seq<Curve>, percent: real)
    requires Uniform(data)
    ensures Uniform(Stacked(data, percent))
    ensures forall i :: 0 <= i < |data| ==> |Stacked(data, percent)[i].y| == |data[0].y|
  {
    var r := Stacked(data, percent);
    forall i | 0 <= i < |data|
      ensures |r[i].y| == |data[0].y|
    {
      StackedIndex(data, percent, i);
    }
  }
}

/** plot_xrd_methods.py: importing XRD scans normalised to their own
    maximum, and plotting them stacked by 10%. plot_xrd.py carries a
    verbatim copy of both functions (its lines 8-62); they are modelled
    once, here. */
module XrdMethods {
  import opened RealSeq
  import opened PyRuntime
  import opened PyDict
  import opened Figure
  import opened PlotUtils
  import opened Stacking
  import opened SeqFacts

  /** An intensity column that `y / y.max()` turns into relative
      intensities: not empty, with a positive maximum. */
  ghost predicate Normalisable(y: seq<real>)
  {
    |y| > 0 && Max(y) > 0.0
  }

  /** `y / y.max()`: relative intensities. Every value is the original
      one scaled by the same factor, none exceeds 1, and the strongest
      reflection becomes exactly 1. */
  function Normalise(y: seq<real>): (r: seq<real>)
    requires Normalisable(y)
    ensures |r| == |y|
    ensures forall k :: 0 <= k < |r| ==> r[k] == y[k] / Max(y)
    ensures forall k :: 0 <= k < |r| ==> r[k] <= 1.0
    ensures Max(r) == 1.0
  {
    DividedByMax(y);
    Divide(y, Max(y))
  }

  lemma DividedByMax(y: seq<real>)
    requires Normalisable(y)
    ensures forall k :: 0 <= k < |y| ==> Divide(y, Max(y))[k] <= 1.0
    ensures Max(Divide(y, Max(y))) == 1.0
  {
    var m := Max(y);
    var r := Divide(y, m);
    var j :| 0 <= j < |y| && y[j] == m;
    forall k | 0 <= k < |r|
      ensures r[k] <= 1.0
    {
      assert r[k] == y[k] / m;
      QuotientAtMostOne(y[k], m);
    }
    assert r[j] == y[j] / m;
    SelfQuotient(m);
    MaxUnique(r, 1.0, j);
  }

  lemma SelfQuotient(m: real)
    requires m > 0.0
    ensures m / m == 1.0
  {
  }

  lemma QuotientAtMostOne(a: real, m: real)
    requires m > 0.0 && a <= m
    ensures a / m <= 1.0
  {
  }

  /** Normalising twice is normalising once: the maximum is already 1. */
  lemma NormaliseIdempotent(y: seq<real>)
    requires Normalisable(y)
    ensures Normalisable(Normalise(y))
    ensures Normalise(Normalise(y)) == Normalise(y)
  {
    var r := Normalise(y);
    var rr := Normalise(r);
    forall k | 0 <= k < |r|
      ensures rr[k] == r[k]
    {
      assert rr[k] * 1.0 == r[k];
    }
  }

  /** Relative intensities do not depend on the unit of the counts: a
      scan divided through by a positive constant normalises to the same
      curve. */
  lemma NormaliseScaleFree(y: seq<real>, c: real)
    requires Normalisable(y) && c > 0.0
    ensures Normalisable(Divide(y, c))
    ensures Normalise(Divide(y, c)) == Normalise(y)
  {
    var m := Max(y);
    var z := Divide(y, c);
    var j :| 0 <= j < |y| && y[j] == m;
    forall k | 0 <= k < |z|
      ensures z[k] <= m / c
    {
      assert z[k] == y[k] / c;
      QuotientMonotone(y[k], m, c);
    }
    assert z[j] == m / c;
    MaxUnique(z, m / c, j);
    assert m / c > 0.0 by {
      QuotientMonotone(0.0, m, c);
    }
    var a, b := Normalise(z), Normalise(y);
    forall k | 0 <= k < |y|
      ensures a[k] == b[k]
    {
      assert a[k] == (y[k] / c) / (m / c);
      QuotientCancel(y[k], m, c);
    }
  }

  lemma QuotientMonotone(a: real, b: real, c: real)
    requires c > 0.0 && a <= b
    ensures a / c <= b / c
    ensures a < b ==> a / c < b / c
  {
  }

  lemma QuotientCancel(a: real, m: real, c: real)
    requires m > 0.0 && c > 0.0
    ensures (a / c) / (m / c) == a / m
  {
  }

  /** The data `import_xrds` returns for `paths`: one curve per item, in
      the dict's order, the intensities normalised. */
  function XrdData(paths: Dict<string, string>, load: string -> Table): (data: seq<Curve>)
    requires forall i :: 0 <= i < |paths| ==> Normalisable(load(paths[i].1).y)
    ensures |data| == |paths|
  {
    seq(|paths|, i requires 0 <= i < |paths| =>
      Curve(load(paths[i].1).x, Normalise(load(paths[i].1).y), paths[i].0))
  }

  /** `import_xrds(paths)`: reads every file of `paths.items()` (the
      reader is `load`), normalises its intensities and appends the
      curve under its label. */
  method ImportXrds(paths: Dict<string, string>, load: string -> Table) returns (data: seq<Curve>)
    requires forall i :: 0 <= i < |paths| ==> Normalisable(load(paths[i].1).y)
    ensures data == XrdData(paths, load)
    ensures forall i :: 0 <= i < |data| ==>
              data[i].name == paths[i].0 && data[i].x == load(paths[i].1).x &&
              Max(data[i].y) == 1.0 && |data[i].y| == |load(paths[i].1).y|
  {
    data := [];
    for i := 0 to |paths|
      invariant data == XrdData(paths, load)[..i]
    {
      var name, path := paths[i].0, paths[i].1;
      var table := load(path);
      var yRel := Normalise(table.y);
      data := data + [Curve(table.x, yRel, name)];
    }
  }

  /** `plot_xrd(ax, data)`: `data[0]` raises `IndexError` on an empty
      list before anything is drawn; otherwise every curve is stacked by
      10% onto the curve drawn before it, drawn with its own x values and
      label, and the x axis is set to 20-140 degrees. */
  method PlotXrd(ax: Axes, data: seq<Curve>) returns (err: Option<Exception>)
    requires Uniform(data)
    modifies ax
    ensures ax.xInverted == old(ax.xInverted)
    ensures data == [] ==> err == Some(IndexError) && ax.lines == old(ax.lines) && ax.xlim == old(ax.xlim)
    ensures data != [] ==> err == None && ax.lines == old(ax.lines) + Stacked(data, 10.0)
    ensures data != [] ==> ax.xlim == Some((20.0, 140.0))
  {
    if data == [] {
      return Some(IndexError);
    }
    var y0 := data[0].y;
    ghost var emitted: seq<Curve> := [];
    for i := 0 to |data|
      invariant forall j :: 0 <= j < |data| ==> |data[j].y| == |y0|
      invariant ax.lines == old(ax.lines) + emitted
      invariant ax.xInverted == old(ax.xInverted)
      invariant emitted == Stacked(data, 10.0)[..i]
      invariant i == 0 ==> y0 == data[0].y
      invariant i > 0 ==> y0 == Stacked(data, 10.0)[i - 1].y
    {
      var c := data[i];
      var y1n := StackByPercent(y0, c.y);
      StackedAt(data, 10.0, i, y0);
      ax.Plot(c.x, y1n, c.name);
      AppendAssoc(old(ax.lines), emitted, [Curve(c.x, y1n, c.name)]);
      TakeSnoc(Stacked(data, 10.0), i);
      emitted := emitted + [Curve(c.x, y1n, c.name)];
      y0 := y1n;
    }
    assert emitted == Stacked(data, 10.0);
    ax.SetXlim(20.0, 140.0);
    err := None;
  }
}

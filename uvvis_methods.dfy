/** uvvis_methods.py: importing UV-Vis spectra from parallel lists of
    labels and files, and plotting them stacked by 20% with the x axis
    fitted to the wavelengths seen. */
module Uvvis {
  import opened RealSeq
  import opened PyRuntime
  import opened PyDict
  import opened Figure
  import opened PlotUtils
  import opened Stacking
  import opened SeqFacts

  /** The data `import_data` returns: for each `(label, path)` of
      `zip(labels, paths)`, the wavelengths and absorbances read from the
      file, under the label. */
  function UvvisData(labels: seq<string>, paths: seq<string>, load: string -> Table): (data: seq<Curve>)
    ensures |data| == |Zip(labels, paths)|
    ensures forall i :: 0 <= i < |data| ==>
              data[i] == Curve(load(paths[i]).x, load(paths[i]).y, labels[i])
  {
    var pairs := Zip(labels, paths);
    seq(|pairs|, i requires 0 <= i < |pairs| =>
      Curve(load(pairs[i].1).x, load(pairs[i].1).y, pairs[i].0))
  }

  /** `import_data(labels, paths)`: one curve per pair, so the longer of
      the two lists is cut to the length of the shorter. */
  method ImportData(labels: seq<string>, paths: seq<string>, load: string -> Table) returns (data: seq<Curve>)
    ensures data == UvvisData(labels, paths, load)
    ensures |data| == if |labels| <= |paths| then |labels| else |paths|
  {
    data := [];
    var pairs := Zip(labels, paths);
    for i := 0 to |pairs|
      invariant data == UvvisData(labels, paths, load)[..i]
    {
      var name, path := pairs[i].0, pairs[i].1;
      var table := load(path);
      data := data + [Curve(table.x, table.y, name)];
    }
  }

  /** Where the first curve without wavelengths sits (`|data|` when every
      curve has some): `wavelength.max()` raises `ValueError` there. */
  function FirstEmpty(data: seq<Curve>): (j: nat)
    ensures j <= |data|
    ensures forall i :: 0 <= i < j ==> |data[i].x| > 0
    ensures j < |data| ==> |data[j].x| == 0
  {
    if data == [] then 0
    else if |data[0].x| == 0 then 0
    else
      assert forall i :: 1 <= i < |data| ==> data[i] == data[1..][i - 1];
      1 + FirstEmpty(data[1..])
  }

  /** The running `x_min` of `plot_uvvis` after the first `n` curves: it
      starts at 10000 and drops to the smallest wavelength of a curve
      whenever that is below it; `LowestXBound` states what it is. */
  function LowestX(data: seq<Curve>, n: nat): (lo: real)
    requires n <= |data|
    requires forall i :: 0 <= i < n ==> |data[i].x| > 0
    ensures lo <= 10000.0
  {
    if n == 0 then 10000.0
    else
      var lo := LowestX(data, n - 1);
      if Min(data[n - 1].x) < lo then Min(data[n - 1].x) else lo
  }

  /** The running `x_max` of `plot_uvvis` after the first `n` curves: it
      starts at 0 and rises to the largest wavelength of a curve whenever
      that is above it; `HighestXBound` states what it is. */
  function HighestX(data: seq<Curve>, n: nat): (hi: real)
    requires n <= |data|
    requires forall i :: 0 <= i < n ==> |data[i].x| > 0
    ensures hi >= 0.0
  {
    if n == 0 then 0.0
    else
      var hi := HighestX(data, n - 1);
      if Max(data[n - 1].x) > hi then Max(data[n - 1].x) else hi
  }

  /** The left x limit is at most 10000 and at most every wavelength of
      the first `n` curves, and it is 10000 or the smallest wavelength of
      one of them. */
  lemma {:induction false} LowestXBound(data: seq<Curve>, n: nat)
    requires n <= |data|
    requires forall i :: 0 <= i < n ==> |data[i].x| > 0
    ensures forall i, k :: 0 <= i < n && 0 <= k < |data[i].x| ==> LowestX(data, n) <= data[i].x[k]
    ensures LowestX(data, n) == 10000.0 || exists i :: 0 <= i < n && LowestX(data, n) == Min(data[i].x)
  {
    if n > 0 {
      LowestXBound(data, n - 1);
    }
  }

  /** The right x limit is at least 0 and at least every wavelength of the
      first `n` curves, and it is 0 or the largest wavelength of one of
      them. */
  lemma {:induction false} HighestXBound(data: seq<Curve>, n: nat)
    requires n <= |data|
    requires forall i :: 0 <= i < n ==> |data[i].x| > 0
    ensures forall i, k :: 0 <= i < n && 0 <= k < |data[i].x| ==> data[i].x[k] <= HighestX(data, n)
    ensures HighestX(data, n) == 0.0 || exists i :: 0 <= i < n && HighestX(data, n) == Max(data[i].x)
  {
    if n > 0 {
      HighestXBound(data, n - 1);
    }
  }

  /** When no curve before `i` lacks wavelengths and curve `i` does (or
      there is no curve `i`), `i` is where the first empty one sits. */
  lemma FirstEmptyAt(data: seq<Curve>, i: nat)
    requires i <= |data|
    requires forall j :: 0 <= j < i ==> |data[j].x| > 0
    requires i < |data| ==> |data[i].x| == 0
    ensures FirstEmpty(data) == i
  {
  }

  /** One turn of the loop of `plot_uvvis` (its lines 69-77) for a curve
      that has wavelengths: curve `i` is drawn as element `i` of the 20%
      stacking fold and becomes the next reference, and the running
      `x_min` and `x_max` come to cover the first `i + 1` curves. */
  method PlotEntry(ax: Axes, data: seq<Curve>, i: nat, tmpAbsorbance: seq<real>, xMin: real, xMax: real)
    returns (tmpAbsorbance': seq<real>, xMin': real, xMax': real)
    requires Uniform(data) && i < |data|
    requires forall j :: 0 <= j <= i ==> |data[j].x| > 0
    requires i == 0 ==> tmpAbsorbance == data[0].y
    requires i > 0 ==> tmpAbsorbance == Stacked(data, 20.0)[i - 1].y
    requires xMin == LowestX(data, i) && xMax == HighestX(data, i)
    modifies ax
    ensures ax.lines == old(ax.lines) + [Stacked(data, 20.0)[i]]
    ensures ax.xlim == old(ax.xlim) && ax.xInverted == old(ax.xInverted)
    ensures tmpAbsorbance' == Stacked(data, 20.0)[i].y
    ensures xMin' == LowestX(data, i + 1) && xMax' == HighestX(data, i + 1)
  {
    var name, wavelength, absorbance := data[i].name, data[i].x, data[i].y;
    StackedAt(data, 20.0, i, tmpAbsorbance);
    tmpAbsorbance' := tmpAbsorbance;
    if i != 0 {
      absorbance := StackByPercent(tmpAbsorbance, absorbance, 20.0);
      tmpAbsorbance' := absorbance;
    }
    xMin', xMax' := xMin, xMax;
    if Max(wavelength) > xMax' {
      xMax' := Max(wavelength);
    }
    if Min(wavelength) < xMin' {
      xMin' := Min(wavelength);
    }
    ax.Plot(wavelength, absorbance, name);
  }

  /** `plot_uvvis(ax, data)`: `data[0]` raises `IndexError` on an empty
      list before anything is drawn. Otherwise curve 0 is drawn as it is
      and every later curve is stacked by 20% onto the one drawn before
      it, which is the 20% stacking fold; the first curve without
      wavelengths raises `ValueError` (from `wavelength.max()`) after the
      curves before it were drawn; when none is empty the x axis runs from
      the running minimum to the running maximum of the wavelengths. */
  method PlotUvvis(ax: Axes, data: seq<Curve>) returns (err: Option<Exception>)
    requires Uniform(data)
    modifies ax
    ensures ax.xInverted == old(ax.xInverted)
    ensures data == [] ==> err == Some(IndexError) && ax.lines == old(ax.lines) && ax.xlim == old(ax.xlim)
    ensures data != [] && FirstEmpty(data) < |data| ==>
              err == Some(ValueError) && ax.xlim == old(ax.xlim) &&
              ax.lines == old(ax.lines) + Stacked(data, 20.0)[..FirstEmpty(data)]
    ensures data != [] && FirstEmpty(data) == |data| ==>
              err == None && ax.lines == old(ax.lines) + Stacked(data, 20.0) &&
              ax.xlim == Some((LowestX(data, |data|), HighestX(data, |data|)))
  {
    if data == [] {
      return Some(IndexError);
    }
    var n, xMin, xMax := DrawUntilEmpty(ax, data);
    if n < |data| {
      return Some(ValueError);
    }
    assert Stacked(data, 20.0)[..|data|] == Stacked(data, 20.0);
    ax.SetXlim(xMin, xMax);
    err := None;
  }

  /** The loop of `plot_uvvis` up to the first curve without wavelengths:
      the curves before it are drawn as the start of the 20% stacking
      fold, and `x_min` and `x_max` cover them. */
  method DrawUntilEmpty(ax: Axes, data: seq<Curve>) returns (n: nat, xMin: real, xMax: real)
    requires Uniform(data) && data != []
    modifies ax
    ensures n == FirstEmpty(data)
    ensures ax.lines == old(ax.lines) + Stacked(data, 20.0)[..n]
    ensures ax.xlim == old(ax.xlim) && ax.xInverted == old(ax.xInverted)
    ensures xMin == LowestX(data, n) && xMax == HighestX(data, n)
  {
    xMin := 10000.0;
    xMax := 0.0;
    var tmpAbsorbance := data[0].y;
    ghost var stacked := Stacked(data, 20.0);
    var i := 0;
    while i < |data| && |data[i].x| > 0
      invariant i <= |data|
      invariant forall j :: 0 <= j < i ==> |data[j].x| > 0
      invariant ax.lines == old(ax.lines) + stacked[..i]
      invariant ax.xlim == old(ax.xlim) && ax.xInverted == old(ax.xInverted)
      invariant i == 0 ==> tmpAbsorbance == data[0].y
      invariant i > 0 ==> tmpAbsorbance == stacked[i - 1].y
      invariant xMin == LowestX(data, i) && xMax == HighestX(data, i)
    {
      tmpAbsorbance, xMin, xMax := PlotEntry(ax, data, i, tmpAbsorbance, xMin, xMax);
      AppendAssoc(old(ax.lines), stacked[..i], [stacked[i]]);
      TakeSnoc(stacked, i);
      i := i + 1;
    }
    FirstEmptyAt(data, i);
    n := i;
  }
}

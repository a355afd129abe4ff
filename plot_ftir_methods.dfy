/** plot_ftir_methods.py: importing FTIR spectra as they are read, and
    plotting them stacked by 10% on a reversed wavenumber axis. */
module FtirMethods {
  import opened PyRuntime
  import opened PyDict
  import opened Figure
  import opened PlotUtils
  import opened Stacking
  import opened SeqFacts

  /** The data `import_ftirs` returns for `paths`: one curve per item, in
      the dict's order, the transmittance as read. */
  function FtirData(paths: Dict<string, string>, load: string -> Table): (data: seq<Curve>)
    ensures |data| == |paths|
    ensures forall i :: 0 <= i < |data| ==>
              data[i] == Curve(load(paths[i].1).x, load(paths[i].1).y, paths[i].0)
  {
    seq(|paths|, i requires 0 <= i < |paths| =>
      Curve(load(paths[i].1).x, load(paths[i].1).y, paths[i].0))
  }

  /** `import_ftirs(paths)`: reads every file of `paths.items()` (the
      reader is `load`) and appends its curve under its label. */
  method ImportFtirs(paths: Dict<string, string>, load: string -> Table) returns (data: seq<Curve>)
    ensures data == FtirData(paths, load)
  {
    data := [];
    for i := 0 to |paths|
      invariant data == FtirData(paths, load)[..i]
    {
      var name, path := paths[i].0, paths[i].1;
      var table := load(path);
      data := data + [Curve(table.x, table.y, name)];
    }
  }

  /** `plot_ftir(ax, data)`: `data[0]` raises `IndexError` on an empty
      list before anything is drawn; otherwise every curve is stacked by
      10% onto the curve drawn before it, the x axis is set to 400-4000
      reciprocal centimetres and then inverted, so wavenumbers fall from
      left to right. */
  method PlotFtir(ax: Axes, data: seq<Curve>) returns (err: Option<Exception>)
    requires Uniform(data)
    modifies ax
    ensures data == [] ==> err == Some(IndexError) && ax.lines == old(ax.lines) &&
                           ax.xlim == old(ax.xlim) && ax.xInverted == old(ax.xInverted)
    ensures data != [] ==> err == None && ax.lines == old(ax.lines) + Stacked(data, 10.0)
    ensures data != [] ==> ax.xlim == Some((400.0, 4000.0)) && ax.xInverted == !old(ax.xInverted)
  {
    if data == [] {
      return Some(IndexError);
    }
    var y0 := data[0].y;
    ghost var emitted: seq<Curve> := [];
    for i := 0 to |data|
      invariant forall j :: 0 <= j < |data| ==> |data[j].y| == |y0|
      invariant ax.lines == old(ax.lines) + emitted
      invariant ax.xInverted == old(ax.xInverted)
      invariant emitted == Stacked(data, 10.0)[..i]
      invariant i == 0 ==> y0 == data[0].y
      invariant i > 0 ==> y0 == Stacked(data, 10.0)[i - 1].y
    {
      var c := data[i];
      var y1n := StackByPercent(y0, c.y);
      StackedAt(data, 10.0, i, y0);
      ax.Plot(c.x, y1n, c.name);
      AppendAssoc(old(ax.lines), emitted, [Curve(c.x, y1n, c.name)]);
      TakeSnoc(Stacked(data, 10.0), i);
      emitted := emitted + [Curve(c.x, y1n, c.name)];
      y0 := y1n;
    }
    assert emitted == Stacked(data, 10.0);
    ax.SetXlim(400.0, 4000.0);
    ax.InvertXaxis();
    err := None;
  }
}

/** The script part of plot_xrd.py (lines 64-97): parse the command line,
    pair labels with paths, import and normalise the scans, plot them
    stacked on a fresh figure and save it. */
module XrdScript {
  import opened PyRuntime
  import opened PyDict
  import opened Figure
  import opened Stacking
  import opened CliArgs
  import opened XrdMethods

  /** `paths = dict(zip(labels, raw_data))` after a command line that
      parses; no paths otherwise (the script never gets that far). */
  ghost function Paths(argv: seq<string>): (paths: Dict<string, string>)
    ensures DistinctKeys(paths)
  {
    var o := Parse(Xrd, argv);
    if o.Parsed? then DictOf(Zip(o.labels, o.raw)) else []
  }

  /** The scans named on the command line can be normalised and stacked:
      each has a positive maximum, and all have one length. */
  ghost predicate Readable(argv: seq<string>, load: string -> Table)
  {
    var paths := Paths(argv);
    (forall i :: 0 <= i < |paths| ==> Normalisable(load(paths[i].1).y)) &&
    (forall i :: 0 <= i < |paths| ==> |load(paths[i].1).y| == |load(paths[0].1).y|)
  }

  /** plot_xrd.py run with command line `argv`, reading data files with
      `load`. `--help` stops it and a malformed command line kills it
      before a figure exists (`fig` is `null` then); with no path paired
      to a label `plot_xrd` dies at `data[0]` on the new, empty figure;
      otherwise the figure shows every scan normalised and stacked by 10%,
      in the order of the dict, on a 20-140 degree axis, and is saved
      under the name `--out` bound. */
  method Execute(argv: seq<string>, load: string -> Table) returns (exit: Exit, fig: Axes?)
    requires Readable(argv, load)
    ensures Parse(Xrd, argv) == Quit ==> exit == Stopped && fig == null
    ensures Parse(Xrd, argv).Raised? ==> exit == Failed(Parse(Xrd, argv).e) && fig == null
    ensures Parse(Xrd, argv).Parsed? && Paths(argv) == [] ==>
              exit == Failed(IndexError) && fig != null && fig.lines == [] && fig.xlim == None
    ensures Parse(Xrd, argv).Parsed? && Paths(argv) != [] ==>
              exit == Saved(Parse(Xrd, argv).out) && fig != null &&
              fig.lines == Stacked(XrdData(Paths(argv), load), 10.0) &&
              fig.xlim == Some((20.0, 140.0)) && !fig.xInverted
  {
    var parsed := ParseArgs(Xrd, argv);
    match parsed
    case Quit =>
      return Stopped, null;
    case Raised(e) =>
      return Failed(e), null;
    case Parsed(rawData, labels, out) =>
      var paths := DictOf(Zip(labels, rawData));
      assert paths == Paths(argv);
      var data := ImportXrds(paths, load);
      assert Uniform(data) by {
        forall i | 0 <= i < |data|
          ensures |data[i].y| == |data[0].y|
        {
          assert |data[i].y| == |load(paths[i].1).y| && |data[0].y| == |load(paths[0].1).y|;
        }
      }
      fig := new Axes();
      var err := PlotXrd(fig, data);
      if err.Some? {
        return Failed(err.value), fig;
      }
      return Saved(out), fig;
  }

  /** The documented usage with distinct labels plots one curve per
      label that has a path, under that label and from that path, in the
      order given: the dict keeps every pair. */
  lemma UsagePaths(prog: string, raw: seq<string>, labels: seq<string>, out: string)
    requires !Recognised(Xrd, prog)
    requires forall i :: 0 <= i < |raw| ==> !HasDashDash(raw[i])
    requires forall i :: 0 <= i < |labels| ==> !HasDashDash(labels[i])
    requires forall i, j :: 0 <= i < j < |labels| ==> labels[i] != labels[j]
    ensures Paths([prog, "--raw"] + raw + ["--labels"] + labels + ["--out", out]) == Zip(labels, raw)
  {
    UsageParses(Xrd, prog, raw, labels, out);
    var z := Zip(labels, raw);
    assert DistinctKeys(z) by {
      forall i, j | 0 <= i < j < |z|
        ensures z[i].0 != z[j].0
      {
        assert z[i].0 == labels[i] && z[j].0 == labels[j];
      }
    }
    DictOfDistinct(z);
  }
}

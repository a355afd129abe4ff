/** The script part of plot_ftir.py (lines 9-46): parse the command line,
    pair labels with paths, import the spectra, plot them stacked on a
    fresh figure and save it. */
module FtirScript {
  import opened PyRuntime
  import opened PyDict
  import opened Figure
  import opened Stacking
  import opened CliArgs
  import opened FtirMethods
  import XrdScript

  /** `paths = dict(zip(labels, raw_data))` after a command line that
      parses; no paths otherwise (the script never gets that far). */
  ghost function Paths(argv: seq<string>): (paths: Dict<string, string>)
    ensures DistinctKeys(paths)
  {
    var o := Parse(Ftir, argv);
    if o.Parsed? then DictOf(Zip(o.labels, o.raw)) else []
  }

  /** The spectra named on the command line can be stacked: all have
      one length. */
  ghost predicate Readable(argv: seq<string>, load: string -> Table)
  {
    var paths := Paths(argv);
    forall i :: 0 <= i < |paths| ==> |load(paths[i].1).y| == |load(paths[0].1).y|
  }

  /** plot_ftir.py run with command line `argv`, reading data files with
      `load`. It never stops at `quit()`: `--help` and `--interactive`
      only write a message. A malformed command line kills it before a figure
      exists (`fig` is `null` then); with no path paired to a label
      `plot_ftir` dies at `data[0]` on the new, empty figure; otherwise
      the figure shows every spectrum as read, stacked by 10%, in the
      order of the dict, on a reversed 400-4000 reciprocal centimetre
      axis, and is saved under the name `--out` bound. */
  method Execute(argv: seq<string>, load: string -> Table) returns (exit: Exit, fig: Axes?)
    requires Readable(argv, load)
    ensures exit != Stopped
    ensures Parse(Ftir, argv).Raised? ==> exit == Failed(Parse(Ftir, argv).e) && fig == null
    ensures Parse(Ftir, argv).Parsed? && Paths(argv) == [] ==>
              exit == Failed(IndexError) && fig != null && fig.lines == [] &&
              fig.xlim == None && !fig.xInverted
    ensures Parse(Ftir, argv).Parsed? && Paths(argv) != [] ==>
              exit == Saved(Parse(Ftir, argv).out) && fig != null &&
              fig.lines == Stacked(FtirData(Paths(argv), load), 10.0) &&
              fig.xlim == Some((400.0, 4000.0)) && fig.xInverted
  {
    var parsed := ParseArgs(Ftir, argv);
    FtirNeverQuits(Cli(argv, [], [], None));
    match parsed
    case Raised(e) =>
      return Failed(e), null;
    case Parsed(rawData, labels, out) =>
      var paths := DictOf(Zip(labels, rawData));
      assert paths == Paths(argv);
      var data := ImportFtirs(paths, load);
      assert Uniform(data) by {
        forall i | 0 <= i < |data|
          ensures |data[i].y| == |data[0].y|
        {
          assert data[i].y == load(paths[i].1).y && data[0].y == load(paths[0].1).y;
        }
      }
      fig := new Axes();
      var err := PlotFtir(fig, data);
      if err.Some? {
        return Failed(err.value), fig;
      }
      return Saved(out), fig;
  }

  /** On a command line without `--help` plot_ftir.py collects what
      plot_xrd.py would: the scripts differ only where that flag is. */
  lemma SamePaths(argv: seq<string>)
    requires NoHelp(argv)
    ensures Paths(argv) == XrdScript.Paths(argv)
  {
    NoHelpAgree(Cli(argv, [], [], None));
  }
}

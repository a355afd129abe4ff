# pyplotting in Dafny

A model of the computing core of pyplotting, a handful of Python
scripts that plot X-ray diffraction (XRD), infrared (FTIR) and UV-Vis
spectra as stacked curves. The model covers:

- `stack_by_percent` (plot_utils.py): it raises one curve above a
  reference curve by a percentage of the reference's range;
- the three stacking loops built on it: `plot_xrd` (10%), `plot_ftir`
  (10%, reversed wavenumber axis) and `plot_uvvis` (20%, with an x range
  fitted to the wavelengths);
- the importers: `import_xrds` normalises every scan to its own maximum,
  `import_ftirs` keeps spectra as read, and `import_data` zips labels
  with paths;
- the command-line loop of plot_xrd.py and plot_ftir.py, which pops
  tokens, gathers values after `--raw` and `--labels`, binds `--out`, and
  quits on `--help` (plot_xrd.py only);
- `dict(zip(labels, raw_data))`, an insertion-ordered dict where a
  repeated label keeps its last path;
- the two scripts end to end: parse, pair, import, plot on a fresh
  figure, save.

Modules, one per source file, plus shared pieces:

| file | module | models |
|---|---|---|
| real_seq.dfy | `RealSeq` | NumPy `min`, `max`, `a - b`, `a + c`, `a / c` on float arrays, with float64 as `real` |
| plot_utils.dfy | `PlotUtils` | plot_utils.py |
| stacking.dfy | `Stacking` | the stacking fold the three plot functions share, as a specification |
| seq_facts.dfy | `SeqFacts` | two sequence identities the plot loops use to extend what they have drawn |
| py_runtime.dfy | `PyRuntime` | `None`, `IndexError`, `ValueError`, and how a script ends |
| py_dict.dfy | `PyDict` | `zip` and the insertion-ordered `dict` |
| figure.dfy | `Figure` | the matplotlib `Axes` state the code changes: curves drawn, x limits, x direction |
| cli_args.dfy | `CliArgs` | the argv loop of plot_xrd.py and plot_ftir.py |
| plot_xrd_methods.dfy | `XrdMethods` | plot_xrd_methods.py, and the identical copy in plot_xrd.py lines 8-62 |
| plot_ftir_methods.dfy | `FtirMethods` | plot_ftir_methods.py |
| uvvis_methods.dfy | `Uvvis` | uvvis_methods.py |
| plot_xrd.dfy | `XrdScript` | the script part of plot_xrd.py |
| plot_ftir.dfy | `FtirScript` | the script part of plot_ftir.py |

The code is mostly loops, and the model keeps them as loops:

- Each command-line loop is the method `CliArgs.ParseArgs`. It is proved
  equal to the recursive specification `CliArgs.Parse`.
- Each plot function is a module-level method that takes an `Axes` and
  modifies it. It is proved to draw exactly
  `Stacking.Stacked(data, percent)`.
- Each importer is a loop that appends to a list. It is proved equal to
  a function of its inputs.

The properties are proved about those specification functions.

File reading (`np.loadtxt`) is a parameter `load: string -> Table` that
gives the two columns of a file.

## Model

| member | source | states |
|---|---|---|
| PlotUtils.StackByPercent | plot_utils.py:25-30 | the result has the length of `y1`; two element-wise equal curves (two empty ones included) give `y1` back |
| PlotUtils.StackShift | plot_utils.py:27-29 | when the curves differ, every sample of `y1` moves by the same amount, `delta1 - delta0`, so the curve keeps its shape |
| PlotUtils.StackGap | plot_utils.py:27-29 | when the curves differ, the smallest `y1n[k] - y0[k]` is exactly `percent/100 * (max(y0) - min(y0))` |
| PlotUtils.Gap | plot_utils.py:28 | the gap is non-negative for a non-negative percentage |
| PlotUtils.StackAbove | plot_utils.py:27-29 | with `percent >= 0` the raised curve is nowhere below the reference |
| PlotUtils.StackUnique | plot_utils.py:27-29 | any curve that is `y1` moved as a whole and sits exactly the gap above `y0` is the result, so shift and gap pin it down |
| PlotUtils.StackIdempotent | plot_utils.py:25-29 | stacking an already stacked curve again onto the same reference with the same percentage changes nothing |
| PlotUtils.MinSubOfShift | plot_utils.py:27 | moving a curve by `c` moves its smallest difference to the reference by `c` |
| RealSeq.Min | plot_utils.py:27 | `ndarray.min` is a lower bound that some sample attains |
| RealSeq.Max | plot_xrd_methods.py:56 | `ndarray.max` is an upper bound that some sample attains |
| RealSeq.Sub | plot_utils.py:27 | element-wise `a - b` |
| RealSeq.Shift | plot_utils.py:29 | `s + c` moves every sample by exactly `c` |
| RealSeq.Divide | plot_xrd_methods.py:56 | `s / c`: every sample times `c` gives the original |
| RealSeq.Range | plot_utils.py:28 | `max - min` is never negative |
| Stacking.Stacked | plot_xrd_methods.py:22-26 | the fold emits one curve per input curve, in order, with the input's x values and label |
| Stacking.StackedCurve | plot_xrd_methods.py:23-25 | each emitted curve keeps its x values and label |
| Stacking.RefAt | plot_xrd_methods.py:22-26 | the reference the loop holds has the length of the curves |
| Stacking.StackedFirst | plot_xrd_methods.py:22-24 | the first curve is emitted unchanged, stacked onto itself |
| Stacking.StackedStep | plot_xrd_methods.py:23-26 | each later curve is `stack_by_percent(previous emitted y, own y)`, and the emitted curve is the next reference |
| Stacking.StackedAt | plot_xrd_methods.py:22-26 | curve `i` of the fold is input curve `i`, with its x values and label, stacked onto the reference held at that point |
| Stacking.StackedRef | plot_xrd_methods.py:26 | the curve emitted before `i` is the reference for curve `i` |
| Stacking.StackedShape | plot_xrd_methods.py:24 | every emitted curve is its input curve moved as a whole |
| Stacking.StackedSeparation | plot_xrd_methods.py:24 | with `percent >= 0` no emitted curve dips below the one before; differing neighbours are exactly one gap apart; an input equal to its reference is emitted as it is |
| Stacking.Separated | plot_utils.py:25-29 | `StackAbove` and `StackGap` applied to one stacked curve |
| Stacking.StackedUniform | plot_xrd_methods.py:24 | all emitted curves have the input curves' length |
| XrdMethods.Normalise | plot_xrd_methods.py:56 | `y / y.max()` scales every sample by the same factor; nothing exceeds 1 and the maximum becomes exactly 1 |
| XrdMethods.DividedByMax | plot_xrd_methods.py:56 | dividing by a positive maximum gives values at most 1, with maximum 1 |
| XrdMethods.NormaliseIdempotent | plot_xrd_methods.py:56 | normalising a normalised scan changes nothing |
| XrdMethods.NormaliseScaleFree | plot_xrd_methods.py:56 | a scan divided by any positive constant normalises to the same curve |
| XrdMethods.XrdData | plot_xrd_methods.py:52-59 | one curve per dict item |
| XrdMethods.ImportXrds | plot_xrd_methods.py:52-59 | the loop returns one curve per item of `paths`, in the dict's order, under its label, with the file's x values and the normalised intensities (maximum 1) |
| XrdMethods.PlotXrd | plot_xrd_methods.py:22-28 | empty data raises `IndexError` and draws nothing; otherwise it draws exactly the 10% fold after the curves already on the axes and sets the x limits to 20-140; the x direction is untouched |
| FtirMethods.FtirData | plot_ftir_methods.py:52-58 | curve `i` is the file of item `i` as read, under its label |
| FtirMethods.ImportFtirs | plot_ftir_methods.py:52-58 | the loop returns `FtirData(paths, load)`: no normalisation, the dict's order |
| FtirMethods.PlotFtir | plot_ftir_methods.py:21-31 | empty data raises `IndexError` and changes nothing; otherwise it draws exactly the 10% fold, sets the x limits to 400-4000 and flips the x direction |
| Uvvis.UvvisData | uvvis_methods.py:31-40 | one curve per `zip(labels, paths)` pair, in order: the file's wavelengths and absorbances under the label |
| Uvvis.ImportData | uvvis_methods.py:31-40 | the loop returns `UvvisData`, as many curves as the shorter list has items |
| Uvvis.FirstEmpty | uvvis_methods.py:73-76 | the index of the first curve without wavelengths (where `wavelength.max()` raises), or the length when there is none |
| Uvvis.LowestX | uvvis_methods.py:65-76 | the running `x_min` never exceeds its start value of 10000 |
| Uvvis.HighestX | uvvis_methods.py:65-76 | the running `x_max` never falls below its start value of 0 |
| Uvvis.LowestXBound | uvvis_methods.py:65-76 | `x_min` is at most every wavelength seen, and is 10000 or the minimum of one curve, so it is `min(10000, all wavelengths)` |
| Uvvis.HighestXBound | uvvis_methods.py:65-76 | `x_max` is at least every wavelength seen, and is 0 or the maximum of one curve, so it is `max(0, all wavelengths)` |
| Uvvis.FirstEmptyAt | uvvis_methods.py:73-76 | the first index whose curve has no wavelengths is `FirstEmpty` |
| Uvvis.PlotEntry | uvvis_methods.py:69-77 | one loop turn draws element `i` of the 20% fold, makes it the next reference and widens `x_min`/`x_max` to cover curve `i` |
| Uvvis.DrawUntilEmpty | uvvis_methods.py:65-77 | the loop stops at the first curve without wavelengths, having drawn the curves before it as the start of the 20% fold, with `x_min` and `x_max` covering exactly those curves |
| Uvvis.PlotUvvis | uvvis_methods.py:65-78 | empty data raises `IndexError`; a curve without wavelengths raises `ValueError` after the curves before it were drawn; otherwise exactly the 20% fold is drawn and the x axis runs from `min(10000, wavelengths)` to `max(0, wavelengths)` |
| PyDict.Zip | plot_xrd.py:91 | pairs by position, as many pairs as the shorter list has items |
| PyDict.IndexOf | plot_xrd.py:91 | the position of the first item with the key, or the length |
| PyDict.Get | plot_xrd.py:91 | `d[k]` is missing exactly when no item has key `k` |
| PyDict.GetAt | plot_xrd.py:91 | in a dict the value of an item's key is that item's value |
| PyDict.Put | plot_xrd.py:91 | `d[k] = v` keeps keys distinct; an existing key keeps its place and takes the new value; a new key goes last |
| PyDict.GetPutSame | plot_xrd.py:91 | after `d[k] = v`, `d[k]` is `v` |
| PyDict.GetPutOther | plot_xrd.py:91 | `d[k] = v` leaves every other key's value alone |
| PyDict.DictOf | plot_xrd.py:91 | `dict(pairs)` has distinct keys and no more items than pairs |
| PyDict.DictOfMissing | plot_xrd.py:91 | a label with no pair is not a key |
| PyDict.DictOfLastWins | plot_xrd.py:91 | a repeated label keeps the path of its last pair |
| PyDict.DictOfDistinct | plot_xrd.py:91 | with distinct labels the dict holds exactly the pairs, in order |
| PyDict.DictOfItems | plot_xrd.py:91 | every item of the dict is one of the pairs |
| CliArgs.HasDashDash | plot_xrd.py:73 | Python's `'--' in token`; `DashDashAt` states what it means |
| CliArgs.DashDashAt | plot_xrd.py:73 | a token contains `--` exactly when two adjacent characters of it are both `-` |
| CliArgs.Run | plot_xrd.py:70-89 | `while args:` with one pass per turn; the only exception it raises is `IndexError`, and paths and labels are only ever appended to |
| CliArgs.Parse | plot_xrd.py:66-89 | the loop from a copy of `sys.argv` with nothing collected; with `Ftir` it is plot_ftir.py:11-38; only `IndexError` is raised, and an empty command line gives empty lists and no output name |
| CliArgs.Gather | plot_xrd.py:73-74 | the values gathered and the tokens left make up the input; no value contains `--`; what is left starts with a token containing `--`, or is empty |
| CliArgs.TakeRaw | plot_xrd.py:71-75 | only `--raw` at the front changes anything; then at least `--raw` itself is popped, the old paths stay a prefix of the new ones, and neither labels nor `out` change |
| CliArgs.TakeLabels | plot_xrd.py:76-80 | only `--labels` at the front changes anything; then at least `--labels` itself is popped, the old labels stay a prefix of the new ones, and neither paths nor `out` change |
| CliArgs.TakeOut | plot_xrd.py:81-84 | only `--out` at the front changes anything; it raises `IndexError` exactly when no token follows, and otherwise `out` becomes the next token and both tokens are popped |
| CliArgs.EndPass | plot_xrd.py:85-89 | the pass stops plot_xrd.py exactly when `--help` is next; otherwise it drops one token, if any is left, and nothing else |
| CliArgs.Pass | plot_xrd.py:70-89 | a pass that goes on leaves strictly fewer tokens |
| CliArgs.GatherUntil | plot_xrd.py:73-79 | `--raw`/`--labels` take the tokens up to, and not including, the first one containing `--` |
| CliArgs.TakeRawGathers | plot_xrd.py:71-75 | `--raw` appends those values, in order, to `raw_data` |
| CliArgs.TakeLabelsGathers | plot_xrd.py:76-80 | `--labels` appends those values, in order, to `labels` |
| CliArgs.DropUnrecognised | plot_xrd.py:88-89 | a token the pass does not react to, `argv[0]` included, is dropped and changes nothing else |
| CliArgs.SkipValues | plot_xrd.py:88-89 | values standing at the front of a pass are dropped one per pass |
| CliArgs.UsageParses | plot_xrd.py:66-89 | the documented usage parses to exactly its paths, labels and output name |
| CliArgs.UsagePass | plot_xrd.py:70-89 | the first real pass of the usage collects everything |
| CliArgs.UsageGathers | plot_xrd.py:71-80 | `--raw` then `--labels` in one pass gather both lists |
| CliArgs.OutBindsNext | plot_xrd.py:81-89 | `--out` binds exactly the next token, even one that looks like a flag, and the token after it is then dropped |
| CliArgs.HelpQuits | plot_xrd.py:85-87 | `--help` at the front of a pass quits plot_xrd.py |
| CliArgs.TrailingFlagFails | plot_xrd.py:73-83 | a gathering flag that takes every remaining token, or a trailing `--out`, raises `IndexError` |
| CliArgs.LateRawDropped | plot_xrd.py:70-89 | `--raw` after `--labels` is discarded, and so are its paths: no path is collected |
| CliArgs.LateRawPass | plot_xrd.py:70-89 | the pass that meets `--labels` first gathers the labels and then discards `--raw` |
| CliArgs.NoHelpAgree | plot_ftir.py:15-38 | without a `--help` token both scripts parse alike |
| CliArgs.PassAgree | plot_ftir.py:16-38 | without `--help`, one pass of either script does the same |
| CliArgs.FtirNeverQuits | plot_ftir.py:30-36 | plot_ftir.py never quits while parsing: `--help` and `--interactive` only print |
| CliArgs.RunValues | plot_xrd.py:70-89 | every collected path and label is a token of the command line without `--` |
| CliArgs.ParsedValues | plot_xrd.py:66-89 | the same, from a fresh copy of `sys.argv` |
| CliArgs.PassSuffix | plot_xrd.py:70-89 | a pass only pops tokens from the front |
| CliArgs.PopValues | plot_xrd.py:73-74 | the inner loop appends exactly the values `Gather` names and leaves the rest |
| CliArgs.OnePass | plot_xrd.py:71-89 | one pass of the loop body on the script's variables is `Pass` |
| CliArgs.ParseArgs | plot_xrd.py:66-89 | the whole loop ends exactly as `Parse` says; with `Ftir` it is plot_ftir.py:11-38 |
| Figure.Axes.constructor | plot_xrd.py:94 | a new figure has no curves, no limits and a left-to-right x axis |
| Figure.Axes.Plot | plot_xrd_methods.py:25 | adds one curve after the others and changes nothing else |
| Figure.Axes.SetXlim | plot_xrd_methods.py:28 | sets the x limits and changes nothing else |
| Figure.Axes.InvertXaxis | plot_ftir_methods.py:31 | flips the x direction and changes nothing else |
| XrdScript.Paths | plot_xrd.py:91 | the dict the script builds has distinct labels |
| XrdScript.Execute | plot_xrd.py:66-97 | `--help` stops the script and a bad command line kills it, both before a figure exists; no labelled path means `IndexError` on an empty figure; otherwise the figure holds the normalised scans stacked by 10% in the dict's order on a 20-140 axis, saved under `--out` |
| XrdScript.UsagePaths | plot_xrd.py:91 | for the documented usage with distinct labels the dict is `zip(labels, raw)` |
| FtirScript.Paths | plot_ftir.py:40 | the dict the script builds has distinct labels |
| FtirScript.Execute | plot_ftir.py:11-46 | never stops at `quit()`; a bad command line kills it before a figure exists; no labelled path means `IndexError`; otherwise the figure holds the spectra as read, stacked by 10%, on a reversed 400-4000 axis, saved under `--out` |
| FtirScript.SamePaths | plot_ftir.py:30-33 | without `--help` both scripts pair the same paths with the same labels |

## Left out

- File reading: `np.loadtxt`, with its delimiters, `skiprows` and encoding, is the total function `load`. Unreadable or malformed files are not modelled.
- Presentation: axis labels, grid, legend, line width, figure size, dpi and the `get_children()` list `plot_xrd` and `plot_ftir` return. Only the drawn curves, the x limits and the x direction are kept.
- `print` output, including the usage text of `--help` and the `--interactive` notice of plot_ftir.py. `interactive_mode` (plot_ftir_methods.py:60-64) only prints forever, and no code calls it.
- `sys.argv`: the command line is the parameter `argv`.
- `savefig`: `Saved(fname)` records the name `--out` bound. With no `--out` the source passes its initial empty list as the file name; the model records `None` and does not say what matplotlib then does.
- Floating point: float64 is `real`, so rounding and NaN are absent. The integer start values 10000 and 0 of `x_min`/`x_max` are the reals 10000.0 and 0.0.
- XrdMethods.Normalise: requires a non-empty scan with a positive maximum. The source then divides by zero or by a negative number, or `max()` raises on an empty array. `ImportXrds`, `XrdData` and `XrdScript.Execute` carry the same requirement.
- Stacking.Stacked: requires all curves to have one length, and so do `PlotXrd`, `PlotFtir`, `PlotUvvis` and the scripts' `Readable`. NumPy broadcasting or the shape error it raises on unequal lengths is not modelled.
- PlotUtils.StackByPercent: requires equal lengths, for the same reason.
- Uvvis.PlotUvvis: the source stacks entry `i` before it finds that the entry has no wavelengths. The model's loop stops before that entry. Nothing observable is lost, because that stacked curve is never drawn or kept.
- plot_xrd.py lines 8-62 repeat `plot_xrd` and `import_xrds` of plot_xrd_methods.py word for word. They are modelled once, in `XrdMethods`.
- Python's dict is modelled as its list of items in insertion order. Hashing is not modelled, and nor are lookups by anything other than equal strings.

/** The command-line loop of plot_xrd.py (lines 66-89) and plot_ftir.py
    (lines 11-38). Both scripts copy `sys.argv` and, while tokens remain,
    make one pass: `--raw` and `--labels` at the front collect the tokens
    that follow them, `--out` binds the next token, `--help` is looked at,
    and then one token is discarded. The two scripts differ only at
    `--help`: plot_xrd.py quits there, plot_ftir.py shows its usage and goes on.
    `Run` specifies that loop; `ParseArgs` is the loop itself. */
module CliArgs {
  import opened PyRuntime

  /** Python's `'--' in token`. */
  predicate HasDashDash(t: string)
  {
    |t| >= 2 && ((t[0] == '-' && t[1] == '-') || HasDashDash(t[1..]))
  }

  /** `HasDashDash` is the substring test: some two adjacent characters
      of the token are both `-`. */
  lemma {:induction false} DashDashAt(t: string)
    ensures HasDashDash(t) <==> exists i :: 0 <= i < |t| - 1 && t[i] == '-' && t[i + 1] == '-'
    decreases |t|
  {
    if |t| >= 2 {
      DashDashAt(t[1..]);
      if HasDashDash(t[1..]) {
        var i :| 0 <= i < |t[1..]| - 1 && t[1..][i] == '-' && t[1..][i + 1] == '-';
        assert t[i + 1] == '-' && t[i + 2] == '-';
      }
      if exists i :: 0 <= i < |t| - 1 && t[i] == '-' && t[i + 1] == '-' {
        var i :| 0 <= i < |t| - 1 && t[i] == '-' && t[i + 1] == '-';
        if i > 0 {
          assert t[1..][i - 1] == '-' && t[1..][i] == '-';
        }
      }
    }
  }

  datatype Script = Xrd | Ftir

  /** The script's variables while it parses: the tokens not yet popped
      and what has been collected. `out` starts as an empty list in the
      source and is modelled as `None` until `--out` binds it. */
  datatype Cli = Cli(args: seq<string>, raw: seq<string>, labels: seq<string>, out: Option<string>)

  /** How parsing ends: with the collected values, with `quit()` on
      `--help` (plot_xrd.py only), or with an exception. */
  datatype Outcome =
    | Parsed(raw: seq<string>, labels: seq<string>, out: Option<string>)
    | Quit
    | Raised(e: Exception)

  /** One part of a pass either leaves the script going or ends it. */
  datatype Step = Next(s: Cli) | Halt(o: Outcome)

  /** `a` is what is left of `b` after popping some tokens from its front. */
  ghost predicate IsSuffix(a: seq<string>, b: seq<string>)
  {
    |a| <= |b| && a == b[|b| - |a|..]
  }

  /** The inner `while` of `--raw` and `--labels`: the tokens up to, and
      not including, the first one that contains `--`, and what is left. */
  function Gather(args: seq<string>): (r: (seq<string>, seq<string>))
    ensures r.0 + r.1 == args
    ensures forall i :: 0 <= i < |r.0| ==> !HasDashDash(r.0[i])
    ensures r.1 != [] ==> HasDashDash(r.1[0])
  {
    if args == [] || HasDashDash(args[0]) then ([], args)
    else
      var (vals, rest) := Gather(args[1..]);
      ([args[0]] + vals, rest)
  }

  /** plot_xrd.py:71-75 (plot_ftir.py:16-20): `--raw` at the front is
      popped and the values after it are appended to `raw`. */
  function TakeRaw(s: Cli): (r: Cli)
    requires s.args != []
    ensures |r.args| < |s.args| || r == s
    ensures s.args[0] == "--raw" ==> |r.args| < |s.args|
    ensures s.raw <= r.raw
    ensures r.labels == s.labels && r.out == s.out
    ensures s.args[0] != "--raw" ==> r == s
  {
    if s.args[0] == "--raw" then
      var (vals, rest) := Gather(s.args[1..]);
      s.(args := rest, raw := s.raw + vals)
    else s
  }

  /** plot_xrd.py:76-80 (plot_ftir.py:21-25): the same for `--labels`. */
  function TakeLabels(s: Cli): (r: Cli)
    requires s.args != []
    ensures |r.args| < |s.args| || r == s
    ensures s.args[0] == "--labels" ==> |r.args| < |s.args|
    ensures s.labels <= r.labels
    ensures r.raw == s.raw && r.out == s.out
    ensures s.args[0] != "--labels" ==> r == s
  {
    if s.args[0] == "--labels" then
      var (vals, rest) := Gather(s.args[1..]);
      s.(args := rest, labels := s.labels + vals)
    else s
  }

  /** plot_xrd.py:81-84 (plot_ftir.py:26-29): `--out` is popped and the
      next token, whatever it looks like, is popped into `out`; with no
      token left that second pop raises `IndexError`. */
  function TakeOut(s: Cli): (r: Step)
    requires s.args != []
    ensures r.Next? ==> |r.s.args| <= |s.args| && r.s.raw == s.raw && r.s.labels == s.labels
    ensures r.Halt? ==> r.o == Raised(IndexError)
    ensures s.args[0] == "--out" ==> (r.Halt? <==> |s.args| == 1)
    ensures r.Next? && s.args[0] == "--out" ==> r.s.out == Some(s.args[1]) && r.s.args == s.args[2..]
    ensures s.args[0] != "--out" ==> r == Next(s)
  {
    if s.args[0] != "--out" then Next(s)
    else if |s.args| == 1 then Halt(Raised(IndexError))
    else Next(s.(args := s.args[2..], out := Some(s.args[1])))
  }

  /** One pass of the loop body. The unguarded `args[0]` of the `--labels`
      and `--out` checks raises `IndexError` once a gathering flag has
      taken every token; `--help` quits plot_xrd.py only; the pass ends by
      discarding one token if any is left. */
  function Pass(script: Script, s: Cli): (r: Step)
    requires s.args != []
    ensures r.Next? ==> |r.s.args| < |s.args|
    ensures r.Next? ==> s.raw <= r.s.raw && s.labels <= r.s.labels
    ensures r.Halt? ==> r.o == Quit || r.o == Raised(IndexError)
  {
    var s1 := TakeRaw(s);
    if s1.args == [] then Halt(Raised(IndexError))
    else
      var s2 := TakeLabels(s1);
      if s2.args == [] then Halt(Raised(IndexError))
      else
        match TakeOut(s2)
        case Halt(o) => Halt(o)
        case Next(s3) => EndPass(script, s3)
  }

  /** plot_xrd.py:85-89 (plot_ftir.py:30-38): `--help` next quits
      plot_xrd.py; otherwise one token, if any is left, is discarded. */
  function EndPass(script: Script, s: Cli): (r: Step)
    ensures r.Next? ==> r.s.raw == s.raw && r.s.labels == s.labels && r.s.out == s.out
    ensures r.Next? && s.args != [] ==> r.s.args == s.args[1..]
    ensures r.Next? && s.args == [] ==> r.s.args == []
    ensures r.Halt? <==> script == Xrd && s.args != [] && s.args[0] == "--help"
    ensures r.Halt? ==> r.o == Quit
  {
    if script == Xrd && s.args != [] && s.args[0] == "--help" then Halt(Quit)
    else if s.args != [] then Next(s.(args := s.args[1..]))
    else Next(s)
  }

  /** `while args:` — passes until no token is left or a pass ends the
      script. The only exception the loop raises is `IndexError`, and what
      it collects is only ever appended to. */
  function Run(script: Script, s: Cli): (o: Outcome)
    ensures o.Raised? ==> o.e == IndexError
    ensures o.Parsed? ==> s.raw <= o.raw && s.labels <= o.labels
    decreases |s.args|
  {
    if s.args == [] then Parsed(s.raw, s.labels, s.out)
    else
      match Pass(script, s)
      case Halt(o) => o
      case Next(s') => Run(script, s')
  }

  /** The whole loop, started on a copy of `sys.argv` with nothing collected. */
  function Parse(script: Script, argv: seq<string>): (o: Outcome)
    ensures o.Raised? ==> o.e == IndexError
    ensures argv == [] ==> o == Parsed([], [], None)
  {
    Run(script, Cli(argv, [], [], None))
  }

  /** The flags each script reacts to at the front of a pass. */
  predicate Recognised(script: Script, t: string)
  {
    t == "--raw" || t == "--labels" || t == "--out" || (script == Xrd && t == "--help")
  }

  lemma FlagsHaveDashDash()
    ensures HasDashDash("--raw") && HasDashDash("--labels") && HasDashDash("--out")
    ensures HasDashDash("--help")
  {
  }

  /** A gathering flag stops exactly at the first token containing `--`:
      values free of `--` followed by such a token (or by nothing) split
      there and nowhere else. */
  lemma {:induction false} GatherUntil(vals: seq<string>, rest: seq<string>)
    requires forall i :: 0 <= i < |vals| ==> !HasDashDash(vals[i])
    requires rest != [] ==> HasDashDash(rest[0])
    ensures Gather(vals + rest) == (vals, rest)
  {
    if vals == [] {
      assert vals + rest == rest;
    } else {
      var all := vals + rest;
      assert all[0] == vals[0] && !HasDashDash(all[0]);
      assert all[1..] == vals[1..] + rest;
      GatherUntil(vals[1..], rest);
      assert Gather(all) == ([all[0]] + Gather(all[1..]).0, Gather(all[1..]).1);
      assert [vals[0]] + vals[1..] == vals;
    }
  }

  /** A token that the script does not react to is discarded at the end of
      its pass and changes nothing else: `argv[0]` on the first pass, any
      stray value, `--interactive` in both scripts and `--help` in
      plot_ftir.py. */
  lemma DropUnrecognised(script: Script, s: Cli, t: string)
    requires s.args != [] && s.args[0] == t && !Recognised(script, t)
    ensures Run(script, s) == Run(script, s.(args := s.args[1..]))
  {
  }

  /** Tokens free of `--` at the front of a pass are dropped one per pass:
      the values behind a flag that was discarded are lost. */
  lemma {:induction false} SkipValues(script: Script, s: Cli, vals: seq<string>, rest: seq<string>)
    requires s.args == vals + rest
    requires forall i :: 0 <= i < |vals| ==> !HasDashDash(vals[i])
    ensures Run(script, s) == Run(script, s.(args := rest))
    decreases |vals|
  {
    if vals == [] {
      assert s.args == rest;
      assert s.(args := rest) == s;
    } else {
      FlagsHaveDashDash();
      DropUnrecognised(script, s, vals[0]);
      var s1 := s.(args := s.args[1..]);
      assert s1.args == vals[1..] + rest;
      SkipValues(script, s1, vals[1..], rest);
      assert s1.(args := rest) == s.(args := rest);
    }
  }

  /** The documented usage, `<prog> --raw <paths> --labels <labels> --out
      <figure>`, parses to exactly those paths, labels and output. */
  lemma UsageParses(script: Script, prog: string, raw: seq<string>, labels: seq<string>, out: string)
    requires !Recognised(script, prog)
    requires forall i :: 0 <= i < |raw| ==> !HasDashDash(raw[i])
    requires forall i :: 0 <= i < |labels| ==> !HasDashDash(labels[i])
    ensures Parse(script, [prog, "--raw"] + raw + ["--labels"] + labels + ["--out", out])
            == Parsed(raw, labels, Some(out))
  {
    FlagsHaveDashDash();
    var argv := [prog, "--raw"] + raw + ["--labels"] + labels + ["--out", out];
    var args1 := ["--raw"] + (raw + (["--labels"] + labels + ["--out", out]));
    assert argv == [prog] + args1;
    var s0 := Cli(argv, [], [], None);
    DropUnrecognised(script, s0, prog);
    assert s0.(args := s0.args[1..]) == Cli(args1, [], [], None);
    UsagePass(script, raw, labels, out);
    assert Run(script, Cli(args1, [], [], None)) == Run(script, Cli([], raw, labels, Some(out)));
  }

  lemma TakeRawGathers(s: Cli, vals: seq<string>, rest: seq<string>)
    requires s.args == ["--raw"] + (vals + rest)
    requires forall i :: 0 <= i < |vals| ==> !HasDashDash(vals[i])
    requires rest != [] ==> HasDashDash(rest[0])
    ensures TakeRaw(s) == s.(args := rest, raw := s.raw + vals)
  {
    assert s.args[1..] == vals + rest;
    GatherUntil(vals, rest);
  }

  lemma TakeLabelsGathers(s: Cli, vals: seq<string>, rest: seq<string>)
    requires s.args == ["--labels"] + (vals + rest)
    requires forall i :: 0 <= i < |vals| ==> !HasDashDash(vals[i])
    requires rest != [] ==> HasDashDash(rest[0])
    ensures TakeLabels(s) == s.(args := rest, labels := s.labels + vals)
  {
    assert s.args[1..] == vals + rest;
    GatherUntil(vals, rest);
  }

  /** The pass that meets `--raw` in `UsageParses` gathers everything. */
  lemma UsagePass(script: Script, raw: seq<string>, labels: seq<string>, out: string)
    requires forall i :: 0 <= i < |raw| ==> !HasDashDash(raw[i])
    requires forall i :: 0 <= i < |labels| ==> !HasDashDash(labels[i])
    ensures Pass(script, Cli(["--raw"] + (raw + (["--labels"] + labels + ["--out", out])), [], [], None))
            == Next(Cli([], raw, labels, Some(out)))
  {
    var s1 := Cli(["--raw"] + (raw + (["--labels"] + labels + ["--out", out])), [], [], None);
    var s3 := Cli(["--out", out], raw, labels, None);
    UsageGathers(raw, labels, out);
    assert TakeOut(s3) == Next(Cli([], raw, labels, Some(out)));
  }

  lemma UsageGathers(raw: seq<string>, labels: seq<string>, out: string)
    requires forall i :: 0 <= i < |raw| ==> !HasDashDash(raw[i])
    requires forall i :: 0 <= i < |labels| ==> !HasDashDash(labels[i])
    ensures var s1 := Cli(["--raw"] + (raw + (["--labels"] + labels + ["--out", out])), [], [], None);
            TakeRaw(s1).args != [] && TakeLabels(TakeRaw(s1)) == Cli(["--out", out], raw, labels, None)
  {
    FlagsHaveDashDash();
    var afterRaw := ["--labels"] + labels + ["--out", out];
    var afterLabels := ["--out", out];
    var s1 := Cli(["--raw"] + (raw + afterRaw), [], [], None);
    TakeRawGathers(s1, raw, afterRaw);
    var s2 := Cli(afterRaw, raw, [], None);
    assert afterRaw == ["--labels"] + (labels + afterLabels);
    TakeLabelsGathers(s2, labels, afterLabels);
  }

  /** `--out` takes the next token even when that token is a flag; the
      token after it is then the one discarded at the end of the pass
      (unless it is `--help`, which quits plot_xrd.py). */
  lemma OutBindsNext(script: Script, s: Cli, v: string, rest: seq<string>)
    requires s.args == ["--out", v] + rest
    ensures Run(script, s) ==
            if rest == [] then Parsed(s.raw, s.labels, Some(v))
            else if script == Xrd && rest[0] == "--help" then Quit
            else Run(script, Cli(rest[1..], s.raw, s.labels, Some(v)))
  {
    assert s.args[0] == "--out" && s.args[1] == v && s.args[2..] == rest;
    assert TakeRaw(s) == s;
    assert TakeLabels(s) == s;
    var s3 := s.(args := rest, out := Some(v));
    assert TakeOut(s) == Next(s3);
    if rest == [] {
      assert Pass(script, s) == Next(s3);
    } else if script == Xrd && rest[0] == "--help" {
      assert Pass(script, s) == Halt(Quit);
    } else {
      assert Pass(script, s) == Next(s3.(args := rest[1..]));
    }
  }

  /** `--help` at the front of a pass stops plot_xrd.py before anything
      is imported, whatever the other tokens are. */
  lemma HelpQuits(s: Cli)
    requires s.args != [] && s.args[0] == "--help"
    ensures Run(Xrd, s) == Quit
  {
  }

  /** A gathering flag that takes every remaining token leaves the next
      unguarded `args[0]` without a token, and a trailing `--out` leaves
      its `pop` without one: both raise `IndexError`. */
  lemma TrailingFlagFails(script: Script, s: Cli, vals: seq<string>)
    requires |s.args| > 0 && s.args[1..] == vals
    requires s.args[0] == "--raw" || s.args[0] == "--labels" || (s.args[0] == "--out" && vals == [])
    requires forall i :: 0 <= i < |vals| ==> !HasDashDash(vals[i])
    ensures Run(script, s) == Raised(IndexError)
  {
    GatherUntil(vals, []);
    assert vals + [] == vals;
  }

  /** Flag order matters: a `--raw` that comes after `--labels` in the
      same pass is discarded at the end of that pass, and the paths after
      it are dropped one by one, so no path is collected. */
  lemma LateRawDropped(script: Script, prog: string, labels: seq<string>, raw: seq<string>, out: string)
    requires !Recognised(script, prog)
    requires forall i :: 0 <= i < |raw| ==> !HasDashDash(raw[i])
    requires forall i :: 0 <= i < |labels| ==> !HasDashDash(labels[i])
    ensures Parse(script, [prog, "--labels"] + labels + ["--raw"] + raw + ["--out", out])
            == Parsed([], labels, Some(out))
  {
    FlagsHaveDashDash();
    var argv := [prog, "--labels"] + labels + ["--raw"] + raw + ["--out", out];
    var args1 := ["--labels"] + (labels + (["--raw"] + raw + ["--out", out]));
    assert argv == [prog] + args1;
    var s0 := Cli(argv, [], [], None);
    DropUnrecognised(script, s0, prog);
    assert s0.(args := s0.args[1..]) == Cli(args1, [], [], None);
    LateRawPass(script, labels, raw, out);
    var s3 := Cli(raw + ["--out", out], [], labels, None);
    SkipValues(script, s3, raw, ["--out", out]);
    var s4 := Cli(["--out", out], [], labels, None);
    assert s3.(args := ["--out", out]) == s4;
    OutBindsNext(script, s4, out, []);
  }

  /** The pass that meets `--labels` in `LateRawDropped`: it gathers the
      labels and then discards `--raw`. */
  lemma LateRawPass(script: Script, labels: seq<string>, raw: seq<string>, out: string)
    requires forall i :: 0 <= i < |labels| ==> !HasDashDash(labels[i])
    ensures Run(script, Cli(["--labels"] + (labels + (["--raw"] + raw + ["--out", out])), [], [], None))
            == Run(script, Cli(raw + ["--out", out], [], labels, None))
  {
    FlagsHaveDashDash();
    var afterLabels := ["--raw"] + raw + ["--out", out];
    var s1 := Cli(["--labels"] + (labels + afterLabels), [], [], None);
    assert TakeRaw(s1) == s1;
    TakeLabelsGathers(s1, labels, afterLabels);
    var s2 := Cli(afterLabels, [], labels, None);
    assert TakeOut(s2) == Next(s2);
    var s3 := Cli(raw + ["--out", out], [], labels, None);
    assert afterLabels[1..] == raw + ["--out", out];
    assert Pass(script, s1) == Next(s3);
  }

  ghost predicate NoHelp(args: seq<string>)
  {
    forall i :: 0 <= i < |args| ==> args[i] != "--help"
  }

  /** Without a `--help` token the two scripts parse alike: `--help` is
      their only difference. */
  lemma {:induction false} NoHelpAgree(s: Cli)
    requires NoHelp(s.args)
    ensures Run(Xrd, s) == Run(Ftir, s)
    decreases |s.args|
  {
    if s.args != [] {
      PassAgree(s);
      match Pass(Ftir, s)
      case Halt(o) =>
      case Next(s') =>
        PassSuffix(Ftir, s);
        SuffixNoHelp(s'.args, s.args);
        NoHelpAgree(s');
    }
  }

  lemma SuffixNoHelp(a: seq<string>, b: seq<string>)
    requires IsSuffix(a, b) && NoHelp(b)
    ensures NoHelp(a)
  {
    forall i | 0 <= i < |a|
      ensures a[i] != "--help"
    {
      assert a[i] == b[|b| - |a| + i];
    }
  }

  lemma PassAgree(s: Cli)
    requires s.args != [] && NoHelp(s.args)
    ensures Pass(Xrd, s) == Pass(Ftir, s)
  {
    var s1 := TakeRaw(s);
    TakeRawSuffix(s);
    if s1.args != [] {
      SuffixNoHelp(s1.args, s.args);
      var s2 := TakeLabels(s1);
      TakeLabelsSuffix(s1);
      if s2.args != [] {
        SuffixNoHelp(s2.args, s1.args);
        TakeOutSuffix(s2);
        match TakeOut(s2)
        case Halt(o) =>
        case Next(s3) =>
          SuffixNoHelp(s3.args, s2.args);
          assert s3.args != [] ==> s3.args[0] != "--help";
      }
    }
  }

  /** plot_ftir.py never quits while parsing. */
  lemma {:induction false} FtirNeverQuits(s: Cli)
    ensures Run(Ftir, s) != Quit
    decreases |s.args|
  {
    if s.args != [] {
      match Pass(Ftir, s)
      case Halt(o) =>
      case Next(s') => FtirNeverQuits(s');
    }
  }

  /** Every value collected under `--raw` or `--labels` is a token of the
      command line that contains no `--`. */
  ghost predicate ValuesFrom(vals: seq<string>, argv: seq<string>)
  {
    forall i :: 0 <= i < |vals| ==> vals[i] in argv && !HasDashDash(vals[i])
  }

  lemma {:induction false} RunValues(script: Script, s: Cli, argv: seq<string>)
    requires Collected(s, argv)
    ensures Run(script, s).Parsed? ==>
              ValuesFrom(Run(script, s).raw, argv) && ValuesFrom(Run(script, s).labels, argv)
    decreases |s.args|
  {
    if s.args != [] {
      PassValues(script, s, argv);
      match Pass(script, s)
      case Halt(o) =>
      case Next(s') => RunValues(script, s', argv);
    }
  }

  lemma SuffixTrans(a: seq<string>, b: seq<string>, c: seq<string>)
    requires IsSuffix(a, b) && IsSuffix(b, c)
    ensures IsSuffix(a, c)
  {
    assert forall i :: 0 <= i < |a| ==> a[i] == b[|b| - |a| + i] == c[|c| - |a| + i];
  }

  /** What follows a prefix is a suffix. */
  lemma SuffixOfAppend(a: seq<string>, b: seq<string>, c: seq<string>)
    requires a + b == c
    ensures IsSuffix(b, c)
  {
    assert c[|a|..] == b;
  }

  /** Dropping the first `n` tokens leaves a suffix. */
  lemma SuffixOfDrop(b: seq<string>, n: nat)
    requires n <= |b|
    ensures IsSuffix(b[n..], b)
  {
  }

  /** The parts of a pass only ever pop tokens from the front. */
  lemma TakeRawSuffix(s: Cli)
    requires s.args != []
    ensures IsSuffix(TakeRaw(s).args, s.args)
  {
    if s.args[0] == "--raw" {
      var g := Gather(s.args[1..]);
      assert TakeRaw(s).args == g.1;
      SuffixOfAppend(g.0, g.1, s.args[1..]);
      SuffixOfDrop(s.args, 1);
      SuffixTrans(g.1, s.args[1..], s.args);
    } else {
      assert TakeRaw(s) == s;
    }
  }

  lemma TakeLabelsSuffix(s: Cli)
    requires s.args != []
    ensures IsSuffix(TakeLabels(s).args, s.args)
  {
    if s.args[0] == "--labels" {
      var g := Gather(s.args[1..]);
      assert TakeLabels(s).args == g.1;
      SuffixOfAppend(g.0, g.1, s.args[1..]);
      SuffixOfDrop(s.args, 1);
      SuffixTrans(g.1, s.args[1..], s.args);
    } else {
      assert TakeLabels(s) == s;
    }
  }

  lemma TakeOutSuffix(s: Cli)
    requires s.args != []
    ensures TakeOut(s).Next? ==> IsSuffix(TakeOut(s).s.args, s.args)
  {
    if s.args[0] == "--out" && |s.args| > 1 {
      assert TakeOut(s).s.args == s.args[2..];
      SuffixOfDrop(s.args, 2);
    }
  }

  lemma PassSuffix(script: Script, s: Cli)
    requires s.args != []
    ensures Pass(script, s).Next? ==> IsSuffix(Pass(script, s).s.args, s.args)
  {
    var s1 := TakeRaw(s);
    TakeRawSuffix(s);
    if s1.args != [] {
      var s2 := TakeLabels(s1);
      TakeLabelsSuffix(s1);
      SuffixTrans(s2.args, s1.args, s.args);
      if s2.args != [] && TakeOut(s2).Next? {
        var s3 := TakeOut(s2).s;
        TakeOutSuffix(s2);
        SuffixTrans(s3.args, s2.args, s.args);
        assert Pass(script, s) == EndPass(script, s3);
        if s3.args != [] {
          SuffixOfDrop(s3.args, 1);
          SuffixTrans(s3.args[1..], s3.args, s.args);
        }
      }
    }
  }

  /** What `RunValues` keeps from pass to pass: the tokens left are a
      suffix of the command line and the values so far come from it. */
  ghost predicate Collected(s: Cli, argv: seq<string>)
  {
    IsSuffix(s.args, argv) && ValuesFrom(s.raw, argv) && ValuesFrom(s.labels, argv)
  }

  lemma PassValues(script: Script, s: Cli, argv: seq<string>)
    requires s.args != [] && Collected(s, argv)
    ensures Pass(script, s).Next? ==> Collected(Pass(script, s).s, argv)
  {
    var s1 := TakeRaw(s);
    TakeRawKeeps(s, argv);
    if s1.args != [] {
      var s2 := TakeLabels(s1);
      TakeLabelsKeeps(s1, argv);
      if s2.args != [] {
        TakeOutKeeps(s2, argv);
      }
    }
  }

  lemma TakeRawKeeps(s: Cli, argv: seq<string>)
    requires s.args != [] && Collected(s, argv)
    ensures Collected(TakeRaw(s), argv)
  {
    RawGatheredFrom(s, argv);
    TakeRawSuffix(s);
    SuffixTrans(TakeRaw(s).args, s.args, argv);
  }

  lemma TakeLabelsKeeps(s: Cli, argv: seq<string>)
    requires s.args != [] && Collected(s, argv)
    ensures Collected(TakeLabels(s), argv)
  {
    LabelsGatheredFrom(s, argv);
    TakeLabelsSuffix(s);
    SuffixTrans(TakeLabels(s).args, s.args, argv);
  }

  lemma TakeOutKeeps(s: Cli, argv: seq<string>)
    requires s.args != [] && Collected(s, argv)
    ensures TakeOut(s).Next? ==> Collected(TakeOut(s).s, argv)
    ensures TakeOut(s).Next? && TakeOut(s).s.args != [] ==>
              Collected(TakeOut(s).s.(args := TakeOut(s).s.args[1..]), argv)
  {
    if TakeOut(s).Next? {
      var s3 := TakeOut(s).s;
      TakeOutSuffix(s);
      SuffixTrans(s3.args, s.args, argv);
      if s3.args != [] {
        SuffixOfDrop(s3.args, 1);
        SuffixTrans(s3.args[1..], s3.args, argv);
      }
    }
  }

  lemma RawGatheredFrom(s: Cli, argv: seq<string>)
    requires s.args != [] && IsSuffix(s.args, argv) && ValuesFrom(s.raw, argv)
    ensures ValuesFrom(TakeRaw(s).raw, argv)
  {
    if s.args[0] == "--raw" {
      var vals := Gather(s.args[1..]).0;
      assert TakeRaw(s).raw == s.raw + vals;
      SuffixOfDrop(s.args, 1);
      SuffixTrans(s.args[1..], s.args, argv);
      GatherValuesFrom(s.args[1..], argv);
      AppendValuesFrom(s.raw, vals, argv);
    }
  }

  lemma LabelsGatheredFrom(s: Cli, argv: seq<string>)
    requires s.args != [] && IsSuffix(s.args, argv) && ValuesFrom(s.labels, argv)
    ensures ValuesFrom(TakeLabels(s).labels, argv)
  {
    if s.args[0] == "--labels" {
      var vals := Gather(s.args[1..]).0;
      assert TakeLabels(s).labels == s.labels + vals;
      SuffixOfDrop(s.args, 1);
      SuffixTrans(s.args[1..], s.args, argv);
      GatherValuesFrom(s.args[1..], argv);
      AppendValuesFrom(s.labels, vals, argv);
    }
  }

  lemma GatherValuesFrom(args: seq<string>, argv: seq<string>)
    requires IsSuffix(args, argv)
    ensures ValuesFrom(Gather(args).0, argv)
  {
    var vals := Gather(args).0;
    forall i | 0 <= i < |vals|
      ensures vals[i] in argv
    {
      assert vals[i] == (vals + Gather(args).1)[i] == args[i];
      assert args[i] == argv[|argv| - |args| + i];
    }
  }

  lemma AppendValuesFrom(a: seq<string>, b: seq<string>, argv: seq<string>)
    requires ValuesFrom(a, argv) && ValuesFrom(b, argv)
    ensures ValuesFrom(a + b, argv)
  {
    forall i | 0 <= i < |a + b|
      ensures (a + b)[i] in argv && !HasDashDash((a + b)[i])
    {
      if i < |a| {
        assert (a + b)[i] == a[i];
      } else {
        assert (a + b)[i] == b[i - |a|];
      }
    }
  }

  /** `RunValues` from a fresh copy of the command line: every path and
      label the parse collects is a token of `argv` free of `--`. */
  lemma ParsedValues(script: Script, argv: seq<string>)
    ensures Parse(script, argv).Parsed? ==>
              ValuesFrom(Parse(script, argv).raw, argv) && ValuesFrom(Parse(script, argv).labels, argv)
  {
    RunValues(script, Cli(argv, [], [], None), argv);
  }

  /** The inner `while` of plot_xrd.py:73-74 and :78-79 (plot_ftir.py:18-19
      and :23-24): pops tokens from the front of `args` onto `acc` until
      none is left or the next one contains `--`. */
  method PopValues(args: seq<string>, acc: seq<string>) returns (rest: seq<string>, vals: seq<string>)
    ensures vals == acc + Gather(args).0 && rest == Gather(args).1
  {
    rest, vals := args, acc;
    while rest != [] && !HasDashDash(rest[0])
      invariant acc + Gather(args).0 == vals + Gather(rest).0
      invariant Gather(rest).1 == Gather(args).1
      decreases |rest|
    {
      assert Gather(rest).0 == [rest[0]] + Gather(rest[1..]).0;
      vals := vals + [rest[0]];
      rest := rest[1..];
    }
  }

  /** One pass of the body of the command-line loop, plot_xrd.py:71-89
      (plot_ftir.py:16-38), on the script's variables: it either returns
      the variables for the next pass or says how the script ends. */
  method OnePass(script: Script, s: Cli) returns (r: Step)
    requires s.args != []
    ensures r == Pass(script, s)
  {
    var args, rawData, labels, out := s.args, s.raw, s.labels, s.out;
    if args[0] == "--raw" {
      args, rawData := PopValues(args[1..], rawData);
    }
    ghost var s1 := Cli(args, rawData, labels, out);
    assert s1 == TakeRaw(s);
    if args == [] {
      return Halt(Raised(IndexError));
    }
    if args[0] == "--labels" {
      args, labels := PopValues(args[1..], labels);
    }
    ghost var s2 := Cli(args, rawData, labels, out);
    assert s2 == TakeLabels(s1);
    if args == [] {
      return Halt(Raised(IndexError));
    }
    if args[0] == "--out" {
      args := args[1..];
      if args == [] {
        return Halt(Raised(IndexError));
      }
      out := Some(args[0]);
      args := args[1..];
    }
    assert TakeOut(s2) == Next(Cli(args, rawData, labels, out));
    if script == Xrd && args != [] && args[0] == "--help" {
      return Halt(Quit);
    }
    if args != [] {
      args := args[1..];
    }
    return Next(Cli(args, rawData, labels, out));
  }

  /** The command-line loop of plot_xrd.py:66-89 (`script == Xrd`) and
      plot_ftir.py:11-38 (`script == Ftir`): passes over a copy of
      `sys.argv` until no token is left; it ends exactly as `Parse` says. */
  method ParseArgs(script: Script, argv: seq<string>) returns (o: Outcome)
    ensures o == Parse(script, argv)
  {
    var s := Cli(argv, [], [], None);
    while s.args != []
      invariant Run(script, s) == Parse(script, argv)
      decreases |s.args|
    {
      var r := OnePass(script, s);
      match r
      case Halt(end) =>
        return end;
      case Next(s') =>
        s := s';
    }
    return Parsed(s.raw, s.labels, s.out);
  }
}

/** Command-line scan and validation that run in front of the simulation loop.

    An argument is its text together with the integer that std::stoi would
    read from that text; the conversion itself (and its exceptions) are not
    part of this model, so numeric values arrive already parsed. */
module Cli {

  /** One element of argv: its text and the integer it parses to. */
  datatype Arg = Arg(text: string, number: int)

  /** The three settings the scan overwrites. */
  datatype Config = Config(hz: int, duration: int, reportPath: string)

  /** The three recognised options. */
  datatype Flag = Hz | Duration | Report

  /** What main does with a scanned configuration before the loop starts. */
  datatype Startup = Rejected(exitCode: int) | Accepted(config: Config)

  const HzDefault := 20
  const DurationDefault := 10

  function Defaults(): Config {
    Config(HzDefault, DurationDefault, "")
  }

  function FlagText(f: Flag): string {
    match f
    case Hz => "--hz"
    case Duration => "--duration"
    case Report => "--report"
  }

  predicate IsFlag(text: string) {
    text == FlagText(Hz) || text == FlagText(Duration) || text == FlagText(Report)
  }

  /** The argument at i is an option that has a following argument to consume. */
  predicate Consumes(argv: seq<Arg>, i: nat) {
    i + 1 < |argv| && IsFlag(argv[i].text)
  }

  /** The position the scan looks at after position i. */
  function Next(argv: seq<Arg>, i: nat): nat {
    if Consumes(argv, i) then i + 2 else i + 1
  }

  /** The effect of the argument at position i on the configuration. */
  function Apply(argv: seq<Arg>, i: nat, cfg: Config): Config
    requires i < |argv|
  {
    var t := argv[i].text;
    if t == FlagText(Hz) && i + 1 < |argv| then cfg.(hz := argv[i + 1].number)
    else if t == FlagText(Duration) && i + 1 < |argv| then cfg.(duration := argv[i + 1].number)
    else if t == FlagText(Report) && i + 1 < |argv| then cfg.(reportPath := argv[i + 1].text)
    else cfg
  }

  /** The configuration the scan yields when it starts at position i with cfg. */
  function ScanFrom(argv: seq<Arg>, i: nat, cfg: Config): Config
    decreases |argv| - i
  {
    if i >= |argv| then cfg else ScanFrom(argv, Next(argv, i), Apply(argv, i, cfg))
  }

  /** argv[0] is the program name; the scan starts at 1 from the defaults. */
  function Scan(argv: seq<Arg>): Config {
    ScanFrom(argv, 1, Defaults())
  }

  /** The scan, started at i, looks at position k on its way. */
  predicate Visits(argv: seq<Arg>, i: nat, k: nat)
    decreases |argv| - i
  {
    i == k || (i < k && i < |argv| && Visits(argv, Next(argv, i), k))
  }

  /** The setting selected by f in cfg is the one argument a supplies. */
  predicate Holds(cfg: Config, f: Flag, a: Arg) {
    match f
    case Hz => cfg.hz == a.number
    case Duration => cfg.duration == a.number
    case Report => cfg.reportPath == a.text
  }

  /** c and d agree on the setting selected by f. */
  predicate Agree(c: Config, d: Config, f: Flag) {
    match f
    case Hz => c.hz == d.hz
    case Duration => c.duration == d.duration
    case Report => c.reportPath == d.reportPath
  }

  /** The argument loop of main: each option overwrites its setting with the
      following argument when there is one; anything else is skipped. */
  method ScanArgs(argv: seq<Arg>) returns (cfg: Config)
    ensures cfg == Scan(argv)
  {
    cfg := Defaults();
    var i := 1;
    while i < |argv|
      invariant 1 <= i
      invariant ScanFrom(argv, i, cfg) == Scan(argv)
      decreases |argv| - i
    {
      var arg := argv[i].text;
      if arg == FlagText(Hz) && i + 1 < |argv| {
        i := i + 1;
        cfg := cfg.(hz := argv[i].number);
      } else if arg == FlagText(Duration) && i + 1 < |argv| {
        i := i + 1;
        cfg := cfg.(duration := argv[i].number);
      } else if arg == FlagText(Report) && i + 1 < |argv| {
        i := i + 1;
        cfg := cfg.(reportPath := argv[i].text);
      }
      i := i + 1;
    }
  }

  /** The validation in front of the loop: a non-positive rate or duration
      ends the program with exit code 1; otherwise the configuration is used. */
  function Validate(cfg: Config): (r: Startup)
    ensures r.Rejected? <==> cfg.hz <= 0 || cfg.duration <= 0
    ensures r.Rejected? ==> r.exitCode == 1
    ensures r.Accepted? ==> r.config == cfg && r.config.hz > 0 && r.config.duration > 0
  {
    if cfg.hz <= 0 || cfg.duration <= 0 then Rejected(1) else Accepted(cfg)
  }

  lemma {:induction false} VisitsBound(argv: seq<Arg>, i: nat, k: nat)
    requires Visits(argv, i, k)
    ensures i <= k
  {
  }

  /** Stopping the scan at a visited position k and resuming it there gives the
      same configuration as the whole scan. */
  lemma {:induction false} ScanSplit(argv: seq<Arg>, i: nat, k: nat, cfg: Config)
    requires k <= |argv| && Visits(argv, i, k)
    ensures ScanFrom(argv, i, cfg) == ScanFrom(argv, k, ScanFrom(argv[..k], i, cfg))
    decreases |argv| - i
  {
    if i < k {
      var n := Next(argv, i);
      VisitsBound(argv, n, k);
      var pre := argv[..k];
      assert Consumes(pre, i) == Consumes(argv, i);
      assert Next(pre, i) == n;
      assert Apply(pre, i, cfg) == Apply(argv, i, cfg);
      ScanSplit(argv, n, k, Apply(argv, i, cfg));
    }
  }

  /** The scan from position i reads only argv[i..]. */
  lemma {:induction false} ScanSuffix(argv: seq<Arg>, i: nat, cfg: Config)
    requires i <= |argv|
    ensures ScanFrom(argv, i, cfg) == ScanFrom(argv[i..], 0, cfg)
    decreases |argv| - i
  {
    if i < |argv| {
      var rest := argv[i..];
      assert Consumes(rest, 0) == Consumes(argv, i);
      assert Apply(rest, 0, cfg) == Apply(argv, i, cfg);
      var n := Next(argv, i);
      ScanSuffix(argv, n, Apply(argv, i, cfg));
      assert argv[n..] == rest[n - i..];
      ScanSuffix(rest, n - i, Apply(argv, i, cfg));
    }
  }

  /** Arguments from position i on that never name option f leave its setting alone. */
  lemma {:induction false} Untouched(argv: seq<Arg>, i: nat, cfg: Config, f: Flag)
    requires forall j | i <= j < |argv| :: argv[j].text != FlagText(f)
    ensures Agree(ScanFrom(argv, i, cfg), cfg, f)
    decreases |argv| - i
  {
    if i < |argv| {
      Untouched(argv, Next(argv, i), Apply(argv, i, cfg), f);
    }
  }

  /** Last occurrence wins: when the scan reaches an option f at position k that
      has a value, and f does not occur again after that value, the final
      setting is that value, whatever came before. */
  lemma {:induction false} LastOccurrenceWins(argv: seq<Arg>, k: nat, f: Flag)
    requires Visits(argv, 1, k) && k + 1 < |argv|
    requires argv[k].text == FlagText(f)
    requires forall j | k + 2 <= j < |argv| :: argv[j].text != FlagText(f)
    ensures Holds(Scan(argv), f, argv[k + 1])
  {
    var before := ScanFrom(argv[..k], 1, Defaults());
    ScanSplit(argv, 1, k, Defaults());
    var after := Apply(argv, k, before);
    assert Next(argv, k) == k + 2;
    assert Holds(after, f, argv[k + 1]);
    Untouched(argv, k + 2, after, f);
  }

  /** An argument in final position at which the scan stops has no effect;
      in particular an option with no value after it is ignored. */
  lemma {:induction false} FinalArgumentIgnored(argv: seq<Arg>)
    requires |argv| >= 2 && Visits(argv, 1, |argv| - 1)
    ensures Scan(argv) == Scan(argv[..|argv| - 1])
  {
    var k := |argv| - 1;
    ScanSplit(argv, 1, k, Defaults());
    assert !Consumes(argv, k);
    assert Apply(argv, k, ScanFrom(argv[..k], 1, Defaults())) == ScanFrom(argv[..k], 1, Defaults());
  }

  /** The positions the scan visits before k depend only on argv[..k], as long
      as both sequences extend to k. */
  lemma {:induction false} VisitsPrefix(argv: seq<Arg>, other: seq<Arg>, i: nat, k: nat)
    requires Visits(argv, i, k) && k < |argv| && k <= |other| && other[..k] == argv[..k]
    ensures Visits(other, i, k)
    decreases |argv| - i
  {
    if i < k {
      var n := Next(argv, i);
      VisitsBound(argv, n, k);
      assert other[i] == argv[i];
      if Consumes(argv, i) {
        assert other[i + 1] == argv[i + 1];
      }
      assert Next(other, i) == n;
      VisitsPrefix(argv, other, n, k);
    }
  }

  /** An unknown argument that the scan reaches is skipped: removing it does not
      change the configuration. */
  lemma {:induction false} UnknownArgumentSkipped(argv: seq<Arg>, k: nat)
    requires Visits(argv, 1, k) && k < |argv| && !IsFlag(argv[k].text)
    ensures Scan(argv[..k] + argv[k + 1..]) == Scan(argv)
  {
    var removed := argv[..k] + argv[k + 1..];
    assert removed[..k] == argv[..k];
    VisitsPrefix(argv, removed, 1, k);
    ScanSplit(argv, 1, k, Defaults());
    ScanSplit(removed, 1, k, Defaults());
    var before := ScanFrom(argv[..k], 1, Defaults());
    assert Next(argv, k) == k + 1;
    assert Apply(argv, k, before) == before;
    ScanSuffix(argv, k + 1, before);
    ScanSuffix(removed, k, before);
    assert removed[k..] == argv[k + 1..];
  }
}

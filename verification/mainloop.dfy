/** The body of main: the loop's locals as an object updated in place by one
    method per iteration, the `while (running)` loop around it, and the whole
    program from argument scan to tick count. */
module MainLoop {
  import opened Schedule
  import opened Runs
  import Cli

  /** How main ends: exit code 1 before the loop on a bad configuration, or
      exit code 0 after the loop with the total and expected tick counts. */
  datatype Exit = ConfigError(exitCode: int) | Completed(totalTicks: nat, expectedTicks: int, ended: bool)

  class Loop {
    const hz: int
    const duration: int
    const period: nat
    const start: int

    var running: bool
    var paused: bool
    var stepPending: nat
    var tick: nat
    var nextDeadline: int
    var prev: int

    /** The configuration was validated, and between iterations no step is pending. */
    ghost predicate Valid()
      reads this
    {
      hz > 0 && duration > 0 && stepPending == 0
    }

    function Snapshot(): State
      reads this
    {
      State(running, paused, stepPending, tick, nextDeadline, prev)
    }

    function Settings(): Timing {
      Schedule.Timing(hz, duration, period)
    }

    /** Timing setup: tick 0, running, not paused, the first deadline one
        period after the start reading. */
    constructor (hz: int, duration: int, period: nat, start: int)
      requires hz > 0 && duration > 0
      ensures Valid()
      ensures this.hz == hz && this.duration == duration && this.period == period && this.start == start
      ensures Snapshot() == Initial(start, period)
    {
      this.hz := hz;
      this.duration := duration;
      this.period := period;
      this.start := start;
      running := true;
      paused := false;
      stepPending := 0;
      tick := 0;
      nextDeadline := start + period;
      prev := start;
    }

    /** One pass of the loop body with the polled key and the clock reading
        now; reports whether a tick fired and whether the loop goes on. */
    method Step(input: Input, now: int) returns (ticked: bool, more: bool)
      requires Valid()
      modifies this
      ensures Valid()
      ensures Iteration(Snapshot(), ticked, more) == Iterate(old(Snapshot()), input, now, Settings())
    {
      if input.Key? {
        var c := input.c;
        if c == QuitKey {
          running := false;
        } else if c == PauseKey {
          paused := !paused;
          if !paused {
            nextDeadline := now + period;
          }
        } else if c == StepKey && paused {
          stepPending := stepPending + 1;
        }
      }

      if paused && stepPending == 0 {
        return false, running;
      }
      if paused && stepPending > 0 {
        stepPending := stepPending - 1;
        nextDeadline := now + period;
      }

      var woke := SleepUntil(now, nextDeadline);
      nextDeadline := nextDeadline + period;
      tick := tick + 1;
      prev := woke;

      ticked := true;
      more := !(tick >= hz * duration || !running);
    }

    /** The `while (running)` loop, fed one event per iteration until it exits
        or the events run out. */
    method Run(events: seq<Event>) returns (iterations: nat, ended: bool)
      requires Valid() && running
      modifies this
      ensures Valid()
      ensures Drive(old(Snapshot()), events, Settings()) == Progress(Snapshot(), iterations, ended)
    {
      iterations, ended := 0, false;
      while !ended && iterations < |events|
        invariant Valid()
        invariant iterations <= |events|
        invariant !ended ==> running
        invariant ended ==> Drive(old(Snapshot()), events, Settings()) == Progress(Snapshot(), iterations, true)
        invariant !ended ==>
          var rest := Drive(Snapshot(), events[iterations..], Settings());
          Drive(old(Snapshot()), events, Settings()) == Progress(rest.final, iterations + rest.iterations, rest.ended)
        decreases |events| - iterations, !ended
      {
        var e := events[iterations];
        assert events[iterations..][0] == e;
        assert events[iterations..][1..] == events[iterations + 1..];
        var ticked, more := Step(e.input, e.now);
        iterations := iterations + 1;
        if !more {
          ended := true;
        }
      }
      if !ended {
        assert events[iterations..] == [];
      }
    }
  }

  /** main: scan the arguments, reject a bad rate or duration with exit code 1,
      otherwise run the loop and report the tick count against hz * duration. */
  method Simulate(argv: seq<Cli.Arg>, unitsPerSecond: nat, start: int, events: seq<Event>)
    returns (exit: Exit)
    ensures var cfg := Cli.Scan(argv);
            (exit.ConfigError? <==> cfg.hz <= 0 || cfg.duration <= 0) &&
            (exit.ConfigError? ==> exit.exitCode == 1)
    ensures exit.Completed? ==> exit.expectedTicks == Cli.Scan(argv).hz * Cli.Scan(argv).duration
    ensures exit.Completed? ==>
            var cfg := Cli.Scan(argv);
            var t := Schedule.Timing(cfg.hz, cfg.duration, Period(cfg.hz, unitsPerSecond));
            var r := Drive(Initial(start, t.period), events, t);
            exit.totalTicks == r.final.tick && exit.ended == r.ended
    ensures exit.Completed? ==> exit.totalTicks <= exit.expectedTicks
    ensures exit.Completed? && AllCalm(events) && |events| >= exit.expectedTicks ==>
            exit.ended && exit.totalTicks == exit.expectedTicks
  {
    var cfg := Cli.ScanArgs(argv);
    match Cli.Validate(cfg)
    case Rejected(code) =>
      exit := ConfigError(code);
    case Accepted(valid) =>
      var loop := new Loop(valid.hz, valid.duration, Period(valid.hz, unitsPerSecond), start);
      var t := loop.Settings();
      assert Expected(t) > 0 by {
        ProductPositive(valid.hz, valid.duration);
      }
      var iterations, ended := loop.Run(events);
      TickBounded(Initial(start, t.period), events, t);
      if AllCalm(events) && |events| >= Expected(t) {
        ExpectedTicks(start, events, t);
      }
      exit := Completed(loop.tick, Expected(t), ended);
  }
}

# eva-cpp run control and tick scheduling, in Dafny

This project models the fixed-rate simulation driver in `tokyo3/eva.cxx`. The driver
advances a tick counter at `hz` ticks per second for `duration` seconds. It sleeps
until an explicit deadline each iteration and then moves that deadline on by exactly
one period. This accumulates deadlines instead of computing `now + period`, so lateness
does not drift the schedule. Three keys control the run:

- `p` pauses and resumes.
- `n` single-steps while paused.
- `q` quits.

A short command-line scan runs in front of the loop. It reads `--hz`, `--duration` and
`--report`, and validation rejects a non-positive rate or duration with exit code 1.

The project has four modules:

- `Cli` (`cli.dfy`): the argument loop. `ScanArgs` is an imperative loop proved equal
  to the functional scan `Scan`. The lemmas give its observable rules: the last
  occurrence wins, a final option without a value is ignored, and unknown arguments
  are skipped. `Validate` decides the exit code.
- `Schedule` (`schedule.dfy`): one iteration of the main loop as a pure function
  `Iterate` of the loop locals (`running`, `paused`, `stepPending`, `tick`,
  `nextDeadline`, `prev`), the polled key and the clock reading. The key rules and the
  scheduling rules are lemmas about it.
- `Runs` (`runs.dfy`): `Drive`, the `while (running)` loop over a finite sequence of
  events. Each event is one iteration's key and clock reading. The lemmas here span
  many iterations: arithmetic deadlines, no catch-up, idling while paused, quitting,
  and the total number of ticks.
- `MainLoop` (`mainloop.dfy`): the loop locals as a class `Loop`. `Step` updates its
  fields in place for one iteration and is proved equal to `Iterate`. `Run` is the loop
  around `Step` and is proved equal to `Drive`. `Simulate` is the whole of `main`:
  scan, validate, set up timing, loop, and report the total against
  `expected = hz * duration`.

Time is an integer number of clock units:

- The clock reading at the start of an iteration is an input.
- `sleep_until(deadline)` leaves the clock at `max(now, deadline)`.
- The period is the clock-unit count that `duration_cast` gives for `1/hz` seconds:
  `unitsPerSecond / hz`, truncated.

The stop test `tick * (1.0/hz) >= duration` is modelled as `tick >= hz * duration`.
`StopTestExact` proves that the two agree in exact arithmetic.

Two behaviours of the code, modelled as written:

- The iteration that resumes from a pause also fires a tick in that same iteration,
  against the freshly reset deadline. So two toggles in a row leave the pause flag and
  the step counter as they were, but they are not free of ticks: `PauseTwice` proves
  that such a pair of iterations fires exactly one tick.
- At most one key is read per iteration, and a step request is consumed in the same
  iteration that records it. So `step_pending` is 0 between iterations and never
  exceeds 1. `Loop.Valid()` carries this, and `StepCounterDrained` proves it.

## Model

| member | source | states |
|---|---|---|
| `Cli.ScanArgs` | tokyo3/eva.cxx:31-40 | the argument loop returns exactly the configuration of the functional scan from argv[1] onwards, starting from the defaults 20 Hz and 10 s |
| `Cli.Validate` | tokyo3/eva.cxx:47-50 | the configuration is rejected with exit code 1 exactly when hz <= 0 or duration <= 0; otherwise it is passed on unchanged, with both values positive |
| `Cli.ScanSplit` | tokyo3/eva.cxx:31-40 | pausing the scan at any position it visits and resuming there gives the same configuration as the uninterrupted scan |
| `Cli.ScanSuffix` | tokyo3/eva.cxx:31-40 | the scan from position i depends only on the arguments from i onwards |
| `Cli.Untouched` | tokyo3/eva.cxx:33-38 | arguments that never name an option leave that option's setting unchanged |
| `Cli.LastOccurrenceWins` | tokyo3/eva.cxx:31-40 | when the scan reaches an option that has a following value, and the option does not appear again, the final setting is that value whatever came before (later occurrences override earlier ones) |
| `Cli.FinalArgumentIgnored` | tokyo3/eva.cxx:33-37 | an argument in final position where the scan stops has no effect; in particular `--hz`, `--duration` or `--report` with no value after it is ignored |
| `Cli.VisitsPrefix` | tokyo3/eva.cxx:31-40 | which positions the scan visits before k depends only on the first k arguments |
| `Cli.UnknownArgumentSkipped` | tokyo3/eva.cxx:31-40 | removing an unrecognised argument that the scan visits does not change the resulting configuration |
| `Schedule.PeriodTruncates` | tokyo3/eva.cxx:55-66 | the period is the largest whole number of clock units whose hz-fold fits in one second; it is positive exactly when hz does not exceed the clock resolution |
| `Schedule.StopTestExact` | tokyo3/eva.cxx:107-124 | in exact arithmetic, tick * (1/hz) >= duration holds exactly when tick >= hz * duration |
| `Schedule.SleepUntil` | tokyo3/eva.cxx:101 | the wait never moves the clock backwards: afterwards the clock is at least now and at least the deadline, and equals one of them |
| `Schedule.Initial` | tokyo3/eva.cxx:56-66 | the loop starts running, not paused, with tick 0, no pending step, prev at the start reading and the first deadline one period after the start |
| `Schedule.Iterate` | tokyo3/eva.cxx:71-127 | an iteration fires no tick exactly when, after key handling, the loop is paused with no pending step, and then the state is the key-handled state; otherwise the tick count rises by exactly one, the wait ended at max(now, the deadline it waited for) with the new deadline one period after that deadline, and the loop goes on exactly when still running and the stop test fails |
| `Schedule.StepKeyGated` | tokyo3/eva.cxx:85-87 | `n` raises the pending-step count by exactly one while paused and changes nothing while running |
| `Schedule.PauseKeyToggles` | tokyo3/eva.cxx:77-84 | `p` flips the pause flag; resuming sets the deadline to exactly now + period whatever it was before; pausing leaves the deadline alone |
| `Schedule.IdleIteration` | tokyo3/eva.cxx:91-94 | paused with no pending step and no `p` or `n`: no tick fires, and tick, deadline and the step count are unchanged |
| `Schedule.PendingStepIteration` | tokyo3/eva.cxx:95-104 | paused with a pending step: the count drops by exactly one, the deadline is re-armed at now + period before the wait, the wait ends there, and exactly one tick fires (a run only meets this case through `SingleStep`, since no step is pending between iterations) |
| `Schedule.SingleStep` | tokyo3/eva.cxx:85-104 | `n` while paused fires exactly one tick in that iteration and leaves no step pending |
| `Schedule.ResumeIteration` | tokyo3/eva.cxx:77-104 | resuming fires one tick at now + period and sets the next deadline to now + 2 * period, dropping any earlier lateness |
| `Schedule.RunningIteration` | tokyo3/eva.cxx:101-126 | not paused and no `p` or `q`: exactly one tick fires whatever the clock reads; the deadline grows by exactly one period from its old value; the wake time is max(now, old deadline); nothing else changes; the loop goes on exactly when it is running and has not reached hz * duration |
| `Schedule.NoCatchUp` | tokyo3/eva.cxx:101-104 | however late the clock, one iteration fires at most one tick |
| `Schedule.QuitWhileIdle` | tokyo3/eva.cxx:75-94 | `q` while paused with no pending step clears running and ends the loop without a tick; nothing else changes |
| `Schedule.QuitAfterTick` | tokyo3/eva.cxx:75-126 | `q` in any other state lets exactly one more tick fire, then the loop ends |
| `Schedule.StepCounterDrained` | tokyo3/eva.cxx:85-99 | an iteration that starts with no pending step also ends with none |
| `Runs.Drive` | tokyo3/eva.cxx:71-127 | the loop never runs more iterations than it has events; if it has not exited, it used all of them and is still running |
| `Runs.CalmRun` | tokyo3/eva.cxx:101-126 | unpaused with no `p` or `q`, from below the target: every iteration fires exactly one tick and moves the deadline by exactly one period whatever the clock readings; the loop exits exactly when the tick count first reaches hz * duration |
| `Runs.ExpectedTicks` | tokyo3/eva.cxx:104-137 | a fresh loop given at least hz * duration iterations with no `p` or `q` exits after exactly hz * duration ticks (the summary's `expected`), with the deadline at start + (expected + 1) * period |
| `Runs.CalmDeadlines` | tokyo3/eva.cxx:102 | with no resets, the deadlines after j and after k iterations are exactly (k - j) periods apart, and strictly increasing when the period is positive |
| `Runs.IdleRun` | tokyo3/eva.cxx:91-94 | paused with no pending step and no `p`, `n` or `q`: any number of iterations leave the whole state unchanged and fire no tick |
| `Runs.TickBounded` | tokyo3/eva.cxx:104-126 | from below the target the tick count never exceeds hz * duration, and stays below it while the loop has not exited |
| `Runs.QuitEndsRun` | tokyo3/eva.cxx:71-126 | a `q` ends the loop in the iteration that reads it, whatever follows; no tick fires if the loop was idle, otherwise exactly one |
| `Runs.PauseTwice` | tokyo3/eva.cxx:77-104 | two consecutive iterations that each read `p` (below the target, nothing pending) restore the pause flag, fire exactly one tick (in the resuming iteration), leave the loop running, and leave the deadline at the resuming iteration's reading + 2 * period |
| `MainLoop.Loop.constructor` | tokyo3/eva.cxx:56-66 | the loop locals start in the initial state, with the validated rate and duration and the given period |
| `MainLoop.Loop.Step` | tokyo3/eva.cxx:71-127 | the in-place update of the loop locals is exactly `Iterate`, so every per-iteration lemma applies to it; it keeps "no step pending between iterations" |
| `MainLoop.Loop.Run` | tokyo3/eva.cxx:71-127 | the `while (running)` loop around `Step` ends in exactly the state, iteration count and exit status that `Drive` gives |
| `MainLoop.Simulate` | tokyo3/eva.cxx:11-144 | main exits with code 1 exactly when the scanned hz or duration is non-positive; otherwise expected = hz * duration, and the total and the exit status are exactly those of `Drive` from the initial state with the scanned rate, duration and truncated period; the total never exceeds expected, and with at least expected iterations and no `p` or `q` the loop exits with total == expected |

## Left out

- `render` (tokyo3/eva.cxx:150-169) is not part of this model. It is terminal output only.
- Keyboard polling (`_kbhit`/`_getch`) is an `Input` per iteration: either no key or one character.
- The real clock is not modelled. Each iteration has one integer clock reading. It
  stands for both `clock::now()` calls that may reset the deadline (lines 83 and 98).
  The wake time `max(now, deadline)` stands for the reading after the sleep (line 106).
  The 10 ms idle sleep (line 92) is not modelled, because it does not touch the schedule.
- The loop in the source is unbounded. `Drive` and `Loop.Run` follow it over a finite
  sequence of events, and report whether the loop exited or the events ran out.
- Floating-point quantities are not modelled: `dt_ms`, `planned_ms`, `actual_ms`,
  `oversleep` and `error_pct` (lines 108-116 and 138). The double period `1.0/hz`
  (line 55) is represented by its truncated clock-unit count.
- `Schedule.Finished`: the stop test uses exact arithmetic. Under IEEE double
  rounding, `tick * (1.0/hz)` can fall just below `duration` even when
  `tick == hz * duration`; for example, `49 * (1.0/49)` is `0.9999999999999999`. The
  source can then fire one tick more than `expected`. The model does not capture that.
- `Schedule.Period`: `duration_cast` of the double `1.0/hz` is taken to equal the
  integer quotient `unitsPerSecond / hz`. Double rounding can make the two differ by one
  clock unit.
- Report-file writing (`ofstream`, lines 42-45, 113-122, 129-132) is I/O and is not
  modelled. In the source the file is opened before validation, so a rejected
  configuration can still leave a header-only report file.
- `std::stoi` (lines 34 and 36) is not modelled, and neither are its exceptions for
  non-numeric or out-of-range text. Each argument carries its already-parsed integer.
- Integer widths are not modelled: `tick`, `hz`, `duration` and `hz * duration`
  (line 137) are unbounded integers, so 32-bit signed overflow is not captured.
- Console messages are output only and are not modelled: the validation error
  (line 48), `[PAUSED]`/`[RESUMED]` (line 79), the report notice (line 131) and the
  summary print (lines 140-143).

/** One iteration of the simulation's main loop, as a function of the loop
    state, the key polled in that iteration and the clock reading.

    Time is an integer count of clock units. The clock is read once per
    iteration (`now`); sleeping until a deadline makes the clock read
    max(now, deadline). The period is the whole number of clock units per tick. */
module Schedule {

  /** The key read by the keyboard poll, if one was pending. */
  datatype Input = NoKey | Key(c: char)

  /** The loop's mutable locals. */
  datatype State = State(
    running: bool,
    paused: bool,
    stepPending: nat,
    tick: nat,
    nextDeadline: int,
    prev: int)

  /** The loop's constants: the validated rate and duration and the period in clock units. */
  datatype Timing = Timing(hz: int, duration: int, period: nat)

  /** The state after one iteration, whether a tick fired, and whether the loop goes on. */
  datatype Iteration = Iteration(next: State, ticked: bool, more: bool)

  const QuitKey := 'q'
  const PauseKey := 'p'
  const StepKey := 'n'

  /** The clock units per tick: 1/hz seconds converted to the clock's unit,
      truncated. */
  function Period(hz: int, unitsPerSecond: nat): nat
    requires hz > 0
  {
    unitsPerSecond / hz
  }

  /** The truncated period is the largest whole number of units whose hz-fold
      fits in one second; it is positive exactly when hz does not exceed the
      clock resolution. */
  lemma PeriodTruncates(hz: int, unitsPerSecond: nat)
    requires hz > 0
    ensures Period(hz, unitsPerSecond) * hz <= unitsPerSecond < (Period(hz, unitsPerSecond) + 1) * hz
    ensures Period(hz, unitsPerSecond) > 0 <==> hz <= unitsPerSecond
  {
  }

  /** The ticks a run of `duration` seconds at `hz` should produce. */
  function Expected(t: Timing): int {
    t.hz * t.duration
  }

  /** The stop test on simulated time, tick * (1/hz) >= duration, stated on integers. */
  predicate Finished(tick: nat, t: Timing) {
    tick >= Expected(t)
  }

  /** In exact arithmetic the integer stop test is the elapsed-time comparison. */
  lemma StopTestExact(tick: nat, t: Timing)
    requires t.hz > 0
    ensures (tick as real) * (1.0 / t.hz as real) >= t.duration as real <==> Finished(tick, t)
  {
  }

  /** Sleeping until a deadline: the clock afterwards. */
  function SleepUntil(now: int, deadline: int): (woke: int)
    ensures woke >= now && woke >= deadline
    ensures woke == now || woke == deadline
  {
    if deadline <= now then now else deadline
  }

  /** The state a loop starts from at clock reading `start`. */
  function Initial(start: int, period: nat): (s: State)
    ensures s.running && !s.paused && s.stepPending == 0 && s.tick == 0
    ensures s.nextDeadline - start == period && s.prev == start
  {
    State(true, false, 0, 0, start + period, start)
  }

  /** The effect of the polled key: quit clears `running`; pause toggles
      `paused` and, on resuming, re-arms the deadline one period after now;
      step counts a pending step, but only while paused. */
  function HandleKey(s: State, input: Input, now: int, period: nat): State {
    match input
    case NoKey => s
    case Key(c) =>
      if c == QuitKey then s.(running := false)
      else if c == PauseKey then
        var paused := !s.paused;
        if !paused then s.(paused := paused, nextDeadline := now + period)
        else s.(paused := paused)
      else if c == StepKey && s.paused then s.(stepPending := s.stepPending + 1)
      else s
  }

  /** A whole iteration: key handling, then either idling (paused with no
      pending step) or consuming a step if there is one, waiting for the
      deadline, advancing it by one period, counting one tick and applying
      the stop test. */
  function Iterate(s: State, input: Input, now: int, t: Timing): (r: Iteration)
    ensures var k := HandleKey(s, input, now, t.period);
            !r.ticked <==> k.paused && k.stepPending == 0
    ensures !r.ticked ==> r.next == HandleKey(s, input, now, t.period) && r.more == r.next.running
    ensures r.next.tick == s.tick + (if r.ticked then 1 else 0)
    ensures r.ticked ==> r.next.prev == SleepUntil(now, r.next.nextDeadline - t.period)
    ensures r.ticked ==> (r.more <==> r.next.running && !Finished(r.next.tick, t))
    ensures r.next.paused == HandleKey(s, input, now, t.period).paused
    ensures r.next.running == HandleKey(s, input, now, t.period).running
  {
    var k := HandleKey(s, input, now, t.period);
    if k.paused && k.stepPending == 0 then
      Iteration(k, false, k.running)
    else
      var armed := if k.paused then k.(stepPending := k.stepPending - 1, nextDeadline := now + t.period) else k;
      var woke := SleepUntil(now, armed.nextDeadline);
      var next := armed.(nextDeadline := armed.nextDeadline + t.period, tick := armed.tick + 1, prev := woke);
      Iteration(next, true, next.running && !Finished(next.tick, t))
  }

  /** Keys that neither pause, resume nor quit. */
  predicate Calm(input: Input) {
    input.NoKey? || (input.c != PauseKey && input.c != QuitKey)
  }

  // ---------------------------------------------------------------------
  // Keys

  /** A step request counts only while paused; while running it changes nothing. */
  lemma StepKeyGated(s: State, now: int, period: nat)
    ensures var k := HandleKey(s, Key(StepKey), now, period);
            if s.paused then k == s.(stepPending := s.stepPending + 1) else k == s
  {
  }

  /** Toggling flips `paused`; resuming sets the deadline to exactly one period
      after now, whatever it was; pausing keeps the deadline. */
  lemma PauseKeyToggles(s: State, now: int, period: nat)
    ensures var k := HandleKey(s, Key(PauseKey), now, period);
            k.paused == !s.paused && k.running == s.running &&
            k.stepPending == s.stepPending && k.tick == s.tick &&
            (if s.paused then k.nextDeadline == now + period else k.nextDeadline == s.nextDeadline)
  {
  }

  // ---------------------------------------------------------------------
  // Iterations

  /** Paused with no pending step and no key that changes that: nothing moves. */
  lemma IdleIteration(s: State, input: Input, now: int, t: Timing)
    requires s.paused && s.stepPending == 0
    requires input.NoKey? || (input.c != PauseKey && input.c != StepKey)
    ensures var r := Iterate(s, input, now, t);
            !r.ticked && r.next.tick == s.tick && r.next.nextDeadline == s.nextDeadline &&
            r.next.stepPending == 0 && r.next.paused
  {
  }

  /** A pending step while paused: the counter drops by one, the deadline is
      re-armed one period after now, the wait ends there and exactly one tick fires.
      A run of the loop never starts an iteration in this state (see
      StepCounterDrained); the reachable case, a step key read in the same
      iteration, is SingleStep. */
  lemma PendingStepIteration(s: State, input: Input, now: int, t: Timing)
    requires s.paused && s.stepPending > 0
    requires input.NoKey? || (input.c != PauseKey && input.c != StepKey)
    ensures var r := Iterate(s, input, now, t);
            r.ticked && r.next.paused && r.next.stepPending == s.stepPending - 1 &&
            r.next.tick == s.tick + 1 &&
            r.next.prev == now + t.period && r.next.nextDeadline == now + 2 * t.period
  {
  }

  /** Pressing step while paused with nothing pending fires exactly one tick in
      that iteration and leaves nothing pending. */
  lemma SingleStep(s: State, now: int, t: Timing)
    requires s.paused && s.stepPending == 0
    ensures var r := Iterate(s, Key(StepKey), now, t);
            r.ticked && r.next.paused && r.next.stepPending == 0 && r.next.tick == s.tick + 1 &&
            r.next.prev == now + t.period && r.next.nextDeadline == now + 2 * t.period
  {
  }

  /** Resuming fires a tick against a fresh deadline one period after now:
      lateness accumulated before the pause is dropped. */
  lemma ResumeIteration(s: State, now: int, t: Timing)
    requires s.paused
    ensures var r := Iterate(s, Key(PauseKey), now, t);
            r.ticked && !r.next.paused && r.next.tick == s.tick + 1 &&
            r.next.prev == now + t.period && r.next.nextDeadline == now + 2 * t.period
  {
  }

  /** Not paused and no pause key: one tick, waiting for the current deadline
      (or not at all when late), and the deadline advances by exactly one
      period from its old value however late the clock is. */
  lemma RunningIteration(s: State, input: Input, now: int, t: Timing)
    requires !s.paused && Calm(input)
    ensures var r := Iterate(s, input, now, t);
            r.ticked && r.next.tick == s.tick + 1 &&
            r.next.nextDeadline == s.nextDeadline + t.period &&
            r.next.prev == SleepUntil(now, s.nextDeadline) &&
            r.next == s.(tick := s.tick + 1, nextDeadline := s.nextDeadline + t.period, prev := r.next.prev) &&
            (r.more <==> s.running && !Finished(s.tick + 1, t))
  {
  }

  /** However late the clock, an iteration fires at most one tick. */
  lemma NoCatchUp(s: State, input: Input, now: int, t: Timing)
    ensures Iterate(s, input, now, t).next.tick <= s.tick + 1
  {
  }

  /** Quit while idle ends the loop at once, with no further tick. */
  lemma QuitWhileIdle(s: State, now: int, t: Timing)
    requires s.paused && s.stepPending == 0
    ensures Iterate(s, Key(QuitKey), now, t) == Iteration(s.(running := false), false, false)
  {
  }

  /** Quit otherwise lets the iteration finish its one tick and then ends the loop. */
  lemma QuitAfterTick(s: State, now: int, t: Timing)
    requires !s.paused || s.stepPending > 0
    ensures var r := Iterate(s, Key(QuitKey), now, t);
            r.ticked && r.next.tick == s.tick + 1 && !r.more && !r.next.running
  {
  }

  /** One key per iteration means a step request is used up in the iteration
      that made it: between iterations nothing is ever pending. */
  lemma StepCounterDrained(s: State, input: Input, now: int, t: Timing)
    requires s.stepPending == 0
    ensures Iterate(s, input, now, t).next.stepPending == 0
  {
  }
}

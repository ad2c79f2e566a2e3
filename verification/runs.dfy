/** The main loop over a finite sequence of iterations: each iteration's
    environment is the key its poll returned and the clock reading at its start. */
module Runs {
  import opened Schedule

  /** What one iteration sees from outside. */
  datatype Event = Event(input: Input, now: int)

  /** Where the loop stands after the events: the state, how many iterations
      ran, and whether the loop has exited (rather than run out of events). */
  datatype Progress = Progress(final: State, iterations: nat, ended: bool)

  /** `while (running)`: iterate on the events until an iteration ends the loop
      or the events run out. */
  function Drive(s: State, events: seq<Event>, t: Timing): (r: Progress)
    requires s.running
    ensures r.iterations <= |events|
    ensures !r.ended ==> r.iterations == |events| && r.final.running
    decreases |events|
  {
    if events == [] then Progress(s, 0, false)
    else
      var it := Iterate(s, events[0].input, events[0].now, t);
      if !it.more then Progress(it.next, 1, true)
      else
        var rest := Drive(it.next, events[1..], t);
        Progress(rest.final, rest.iterations + 1, rest.ended)
  }

  predicate AllCalm(events: seq<Event>) {
    forall i | 0 <= i < |events| :: Calm(events[i].input)
  }

  /** No key that could pause, resume, step or quit. */
  predicate AllIdle(events: seq<Event>) {
    forall i | 0 <= i < |events| ::
      events[i].input.NoKey? ||
      (events[i].input.c != PauseKey && events[i].input.c != StepKey && events[i].input.c != QuitKey)
  }

  function Min(a: int, b: int): int {
    if a <= b then a else b
  }

  /** An unpaused run with no pause or quit key, from a tick below the target:
      every iteration fires exactly one tick and moves the deadline exactly one
      period on, whatever the clock readings (no catch-up, no drift); the loop
      exits exactly when the tick count first reaches hz * duration. */
  lemma {:induction false} CalmRun(s: State, events: seq<Event>, t: Timing)
    requires s.running && !s.paused && s.tick < Expected(t)
    requires AllCalm(events)
    ensures var r := Drive(s, events, t);
            r.iterations == Min(|events|, Expected(t) - s.tick) &&
            r.ended == (s.tick + |events| >= Expected(t)) &&
            r.final.tick == s.tick + r.iterations &&
            r.final.nextDeadline == s.nextDeadline + r.iterations * t.period &&
            !r.final.paused && r.final.running
    decreases |events|
  {
    if events != [] {
      var e := events[0];
      RunningIteration(s, e.input, e.now, t);
      var it := Iterate(s, e.input, e.now, t);
      if it.more {
        assert AllCalm(events[1..]) by {
          forall i | 0 <= i < |events| - 1 ensures Calm(events[1..][i].input) {
            assert events[1..][i] == events[i + 1];
          }
        }
        CalmRun(it.next, events[1..], t);
        var rest := Drive(it.next, events[1..], t);
        assert it.next.nextDeadline == s.nextDeadline + t.period;
        SuccTimes(rest.iterations, t.period);
      }
    }
  }

  /** A loop that has just started, fed no pause or quit key for at least
      hz * duration iterations, stops after exactly hz * duration ticks, with
      the deadlines at start + k * period after each k-th. */
  lemma ExpectedTicks(start: int, events: seq<Event>, t: Timing)
    requires t.hz > 0 && t.duration > 0
    requires AllCalm(events) && |events| >= Expected(t)
    ensures var r := Drive(Initial(start, t.period), events, t);
            r.ended && r.iterations == Expected(t) && r.final.tick == Expected(t) &&
            r.final.nextDeadline == start + (Expected(t) + 1) * t.period
  {
    ProductPositive(t.hz, t.duration);
    CalmRun(Initial(start, t.period), events, t);
    SuccTimes(Expected(t), t.period);
  }

  lemma ProductPositive(a: int, b: int)
    requires a > 0 && b > 0
    ensures a * b > 0
  {
  }

  lemma SuccTimes(e: int, p: int)
    ensures (e + 1) * p == e * p + p
  {
  }

  /** With no resets the deadlines after successive iterations form an
      arithmetic sequence of step `period`: after j and after k calm iterations
      (before the loop has ended) they are (k - j) periods apart, and strictly
      increasing when the period is positive. */
  lemma CalmDeadlines(s: State, events: seq<Event>, t: Timing, j: nat, k: nat)
    requires s.running && !s.paused && s.tick < Expected(t)
    requires AllCalm(events)
    requires j < k <= |events| && s.tick + k <= Expected(t)
    ensures Drive(s, events[..k], t).final.nextDeadline
         == Drive(s, events[..j], t).final.nextDeadline + (k - j) * t.period
    ensures t.period > 0 ==>
            Drive(s, events[..j], t).final.nextDeadline < Drive(s, events[..k], t).final.nextDeadline
  {
    CalmPrefix(events, k);
    CalmPrefix(events, j);
    CalmRun(s, events[..k], t);
    CalmRun(s, events[..j], t);
    Distribute(j, k, t.period);
    if t.period > 0 {
      ProductPositive(k - j, t.period);
    }
  }

  lemma CalmPrefix(events: seq<Event>, k: nat)
    requires AllCalm(events) && k <= |events|
    ensures AllCalm(events[..k])
  {
    forall i | 0 <= i < k ensures Calm(events[..k][i].input) {
      assert events[..k][i] == events[i];
    }
  }

  lemma Distribute(j: int, k: int, p: int)
    ensures k * p == j * p + (k - j) * p
  {
  }

  /** Paused with nothing pending and no key that resumes, steps or quits: any
      number of iterations go by without a tick and without touching the
      schedule. */
  lemma {:induction false} IdleRun(s: State, events: seq<Event>, t: Timing)
    requires s.running && s.paused && s.stepPending == 0
    requires AllIdle(events)
    ensures Drive(s, events, t) == Progress(s, |events|, false)
    decreases |events|
  {
    if events != [] {
      var e := events[0];
      IdleIteration(s, e.input, e.now, t);
      assert AllIdle(events[1..]) by {
        forall i | 0 <= i < |events| - 1 ensures
          events[1..][i].input.NoKey? ||
          (events[1..][i].input.c != PauseKey && events[1..][i].input.c != StepKey &&
           events[1..][i].input.c != QuitKey)
        {
          assert events[1..][i] == events[i + 1];
        }
      }
      IdleRun(s, events[1..], t);
    }
  }

  /** The loop never counts past hz * duration: from a state below the target
      every state the loop reaches is at most the target. */
  lemma {:induction false} TickBounded(s: State, events: seq<Event>, t: Timing)
    requires s.running && s.tick < Expected(t)
    ensures Drive(s, events, t).final.tick <= Expected(t)
    ensures !Drive(s, events, t).ended ==> Drive(s, events, t).final.tick < Expected(t)
    decreases |events|
  {
    if events != [] {
      var it := Iterate(s, events[0].input, events[0].now, t);
      if it.more {
        TickBounded(it.next, events[1..], t);
      }
    }
  }

  /** Quit ends the loop in the iteration that reads it, whatever events would
      follow: with no tick when idle, after one last tick otherwise. */
  lemma QuitEndsRun(s: State, now: int, rest: seq<Event>, t: Timing)
    requires s.running
    ensures var r := Drive(s, [Event(Key(QuitKey), now)] + rest, t);
            r.ended && r.iterations == 1 && !r.final.running &&
            r.final.tick == s.tick + (if s.paused && s.stepPending == 0 then 0 else 1)
  {
  }

  /** Two consecutive iterations that each read `p` restore the pause flag and
      fire exactly one tick between them: the resuming iteration ticks against a
      deadline reset to its own reading plus one period, the pausing one idles.
      The deadline ends two periods after the reading of the resuming iteration. */
  lemma PauseTwice(s: State, now1: int, now2: int, t: Timing)
    requires s.running && s.stepPending == 0 && s.tick + 1 < Expected(t)
    ensures var r := Drive(s, [Event(Key(PauseKey), now1), Event(Key(PauseKey), now2)], t);
            !r.ended && r.iterations == 2 && r.final.running &&
            r.final.paused == s.paused && r.final.stepPending == 0 &&
            r.final.tick == s.tick + 1 &&
            r.final.nextDeadline == (if s.paused then now1 else now2) + 2 * t.period
  {
    var events := [Event(Key(PauseKey), now1), Event(Key(PauseKey), now2)];
    assert events[1..] == [Event(Key(PauseKey), now2)];
    var first := Iterate(s, Key(PauseKey), now1, t);
    if s.paused {
      ResumeIteration(s, now1, t);
      assert first.more;
      var second := Iterate(first.next, Key(PauseKey), now2, t);
      assert !second.ticked && second.next == first.next.(paused := true);
      assert Drive(first.next, events[1..], t) == Progress(second.next, 1, false);
    } else {
      assert !first.ticked && first.more && first.next == s.(paused := true);
      ResumeIteration(first.next, now2, t);
      var second := Iterate(first.next, Key(PauseKey), now2, t);
      assert Drive(first.next, events[1..], t) == Progress(second.next, 1, false);
    }
  }
}

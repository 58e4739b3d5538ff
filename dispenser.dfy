/** The dispense control loop (`Dispenser::dispense`): drive the motor, follow the filtered scale weight,
    slow the motor as the target is approached, and stop once enough weight has left the scale (confirmed by
    a median reading), after three checks in a row, or on timeout.

    The hardware is not simulated. Each loop iteration is a `Tick` that carries what the outside world answers
    during that iteration: the clock (nanoseconds since the loop started), the filtered weight (or the scale's
    error), whether the motor refuses the first command of the iteration, and the median weight in case a check
    asks for one. The loop runs over a finite sequence of ticks; if they run out before the loop stops the run is
    still `Pending`. */
module Dispenser {
  import opened Wrappers
  import opened Durations
  import opened Hardware
  import opened Errors

  datatype DispenseSettings = DispenseSettings(
    samplePeriod: Duration,
    cutoffFrequency: real,
    checkOffset: real,
    weight: real,
    maxVelocity: real,
    minVelocity: real,
    timeout: Duration)

  /** `impl Default for DispenseSettings`. */
  function DefaultSettings(): (s: DispenseSettings)
    ensures TotalNanos(s.samplePeriod) == 80 * NanosPerMilli && TotalNanos(s.timeout) == 30 * NanosPerSec
    ensures s.cutoffFrequency == 2.0 && s.checkOffset == 5.0 && s.weight == 50.0
    ensures s.maxVelocity == 0.5 && s.minVelocity == 0.1
  {
    DispenseSettings(FromMillis(80), 2.0, 5.0, 50.0, 0.5, 0.1, FromSecs(30))
  }

  /** The velocity is only recomputed once more than 25 ms have passed since the last update. */
  const SpeedUpdateNanos: nat := 25 * NanosPerMilli
  /** Every move the loop commands is a relative move of 1000 steps. */
  const MoveDistance: real := 1000.0
  /** Three checks in a row end the dispense. */
  const MaxChecks: nat := 3

  /** The proportional speed `((curr - start + weight) / weight) * max_velocity`, for a non-zero weight. */
  function NewSpeed(curr: real, start: real, s: DispenseSettings): real
    requires s.weight != 0.0
  {
    ((curr - start + s.weight) / s.weight) * s.maxVelocity
  }

  /** The velocity the loop commands. With a zero target weight the floating-point quotient is an infinity
      (or NaN when nothing changed), which selects the maximum exactly when the proportional speed would be
      positive infinity and the minimum otherwise. */
  function CommandedVelocity(curr: real, start: real, s: DispenseSettings): (v: real)
    ensures s.minVelocity <= s.maxVelocity ==> s.minVelocity <= v <= s.maxVelocity
    ensures v == s.minVelocity || v == s.maxVelocity
            || (s.weight != 0.0 && v == NewSpeed(curr, start, s) && s.minVelocity < v <= s.maxVelocity)
    ensures s.weight != 0.0 && NewSpeed(curr, start, s) > s.maxVelocity ==> v == s.maxVelocity
    ensures s.weight != 0.0 && s.minVelocity < NewSpeed(curr, start, s) <= s.maxVelocity ==>
              v == NewSpeed(curr, start, s)
    ensures s.weight != 0.0 && !(NewSpeed(curr, start, s) > s.maxVelocity) && NewSpeed(curr, start, s) <= s.minVelocity ==>
              v == s.minVelocity
  {
    if s.weight == 0.0 then
      if (curr - start) * s.maxVelocity > 0.0 then s.maxVelocity else s.minVelocity
    else
      var ns := NewSpeed(curr, start, s);
      if ns > s.maxVelocity then s.maxVelocity
      else if ns > s.minVelocity then ns
      else s.minVelocity
  }

  /** The control law is monotone: less weight left on the scale never means a faster motor. */
  lemma VelocityMonotone(c1: real, c2: real, start: real, s: DispenseSettings)
    requires s.weight > 0.0 && s.maxVelocity >= 0.0 && s.minVelocity <= s.maxVelocity
    requires c1 <= c2
    ensures CommandedVelocity(c1, start, s) <= CommandedVelocity(c2, start, s)
  {
    var a1, a2 := c1 - start + s.weight, c2 - start + s.weight;
    assert a1 / s.weight <= a2 / s.weight by {
      assert a2 / s.weight - a1 / s.weight == (a2 - a1) / s.weight;
    }
    MulMonotone(a1 / s.weight, a2 / s.weight, s.maxVelocity);
  }

  lemma MulMonotone(x: real, y: real, m: real)
    requires x <= y && m >= 0.0
    ensures x * m <= y * m
  {
    assert y * m - x * m == (y - x) * m;
  }

  /** Nothing dispensed yet: full speed. Target weight gone: minimum speed. */
  lemma VelocityEnds(curr: real, start: real, s: DispenseSettings)
    requires s.weight > 0.0 && 0.0 <= s.minVelocity <= s.maxVelocity
    ensures curr >= start ==> CommandedVelocity(curr, start, s) == s.maxVelocity
    ensures curr <= start - s.weight ==> CommandedVelocity(curr, start, s) == s.minVelocity
  {
    var q := (curr - start + s.weight) / s.weight;
    if curr >= start {
      assert q >= 1.0 by {
        assert (curr - start + s.weight) / s.weight == (curr - start) / s.weight + s.weight / s.weight;
        assert (curr - start) / s.weight >= 0.0;
      }
      MulMonotone(1.0, q, s.maxVelocity);
    }
    if curr <= start - s.weight {
      assert q <= 0.0;
      MulMonotone(q, 0.0, s.maxVelocity);
    }
  }

  // One iteration of the loop.

  datatype Tick = Tick(at: nat, reading: Result<real, string>, motorFault: Option<string>,
                       median: Result<real, string>)

  datatype MotorCommand = SetVelocity(velocity: real) | RelativeMove(distance: real) | AbruptStop

  /** The loop's variables: the data collected, `checks_made`, the clock reading of the last speed update
      (negative: before the loop started) and the motor commands issued so far. */
  datatype LoopState = LoopState(data: Data, checksMade: nat, lastSpeedUpdate: int, commands: seq<MotorCommand>)

  datatype StepResult = Continue(next: LoopState) | Finish(last: LoopState) | Abort(error: AppError)

  predicate SpeedDue(st: LoopState, t: Tick)
  {
    t.at as int - st.lastSpeedUpdate > SpeedUpdateNanos as int
  }

  predicate CheckFires(s: DispenseSettings, start: real, curr: real)
  {
    curr <= start - (s.weight + s.checkOffset)
  }

  predicate TimedOut(s: DispenseSettings, t: Tick)
  {
    t.at > TotalNanos(s.timeout)
  }

  predicate Healthy(t: Tick)
  {
    t.reading.Success? && t.motorFault.None? && t.median.Success?
  }

  function Step(s: DispenseSettings, start: real, st: LoopState, t: Tick): StepResult
  {
    if t.reading.Failure? then Abort(Libra(t.reading.error))
    else
      var curr := t.reading.value;
      var data := Push(st.data, FromNanos(t.at), curr);
      var speed := SpeedDue(st, t);
      if speed && t.motorFault.Some? then Abort(Anyhow(t.motorFault.value))
      else
        var cmds := if speed then st.commands + [SetVelocity(CommandedVelocity(curr, start, s)), RelativeMove(MoveDistance)]
                    else st.commands;
        var last := if speed then t.at as int else st.lastSpeedUpdate;
        var fault := if speed then None else t.motorFault;
        if CheckFires(s, start, curr) then
          var checks := st.checksMade + 1;
          if fault.Some? then Abort(Anyhow(fault.value))
          else if t.median.Failure? then Abort(Libra(t.median.error))
          else if t.median.value > start - s.weight || checks >= MaxChecks then
            Finish(LoopState(data, checks, last, cmds + [AbruptStop]))
          else Continue(LoopState(data, checks, last, cmds + [AbruptStop, RelativeMove(MoveDistance)]))
        else if TimedOut(s, t) then
          if fault.Some? then Abort(Anyhow(fault.value))
          else Finish(LoopState(data, st.checksMade, last, cmds + [AbruptStop]))
        else Continue(LoopState(data, 0, last, cmds))
  }

  datatype Run = Stopped(data: Data, commands: seq<MotorCommand>) | Failed(error: AppError) | Pending(state: LoopState)

  function RunLoop(s: DispenseSettings, start: real, st: LoopState, ticks: seq<Tick>): Run
    decreases |ticks|
  {
    if ticks == [] then Pending(st)
    else match Step(s, start, st, ticks[0])
         case Continue(n) => RunLoop(s, start, n, ticks[1..])
         case Finish(l) => Stopped(l.data, l.commands)
         case Abort(e) => Failed(e)
  }

  /** What the world answers around the loop: the first motor command (set the maximum velocity, then start a
      move) may be refused, the starting median weight may fail, and the loop's ticks. `speedClockLead` is how
      long before the loop's clock started the speed-update clock was read. */
  datatype DispenseInputs = DispenseInputs(setupFault: Option<string>, startingWeight: Result<real, string>,
                                           speedClockLead: nat, ticks: seq<Tick>)

  function InitialState(s: DispenseSettings, inputs: DispenseInputs): LoopState
  {
    LoopState(EmptyData(), 0, -(inputs.speedClockLead as int), [SetVelocity(s.maxVelocity), RelativeMove(MoveDistance)])
  }

  function DispenseRun(s: DispenseSettings, inputs: DispenseInputs): Run
  {
    if inputs.setupFault.Some? then Failed(Anyhow(inputs.setupFault.value))
    else if inputs.startingWeight.Failure? then Failed(Libra(inputs.startingWeight.error))
    else RunLoop(s, inputs.startingWeight.value, InitialState(s, inputs), inputs.ticks)
  }

  lemma Unfold(ticks: seq<Tick>, i: nat)
    requires i < |ticks|
    ensures ticks[i..] != [] && ticks[i..][0] == ticks[i] && ticks[i..][1..] == ticks[i + 1..]
  {
  }

  /** `Dispenser::dispense`, as a loop over the ticks. */
  method Dispense(s: DispenseSettings, inputs: DispenseInputs) returns (r: Run)
    ensures r == DispenseRun(s, inputs)
  {
    var commands := [SetVelocity(s.maxVelocity)];
    if inputs.setupFault.Some? {
      return Failed(Anyhow(inputs.setupFault.value));
    }
    commands := commands + [RelativeMove(MoveDistance)];
    var lastSpeedUpdate: int := -(inputs.speedClockLead as int);
    if inputs.startingWeight.Failure? {
      return Failed(Libra(inputs.startingWeight.error));
    }
    var startingWeight := inputs.startingWeight.value;
    var data := EmptyData();
    var checksMade: nat := 0;
    var ticks := inputs.ticks;
    var i := 0;
    assert ticks[i..] == ticks;
    assert commands == [SetVelocity(s.maxVelocity), RelativeMove(MoveDistance)];
    assert InitialState(s, inputs) == LoopState(data, checksMade, lastSpeedUpdate, commands);
    while i < |ticks|
      invariant 0 <= i <= |ticks|
      invariant checksMade < MaxChecks
      invariant DispenseRun(s, inputs)
                == RunLoop(s, startingWeight, LoopState(data, checksMade, lastSpeedUpdate, commands), ticks[i..])
    {
      ghost var before := LoopState(data, checksMade, lastSpeedUpdate, commands);
      Unfold(ticks, i);
      var t := ticks[i];
      if t.reading.Failure? {
        return Failed(Libra(t.reading.error));
      }
      var curr := t.reading.value;
      data := Push(data, FromNanos(t.at), curr);
      var fault := t.motorFault;
      if t.at as int - lastSpeedUpdate > SpeedUpdateNanos as int {
        if fault.Some? {
          return Failed(Anyhow(fault.value));
        }
        commands := commands + [SetVelocity(CommandedVelocity(curr, startingWeight, s))];
        lastSpeedUpdate := t.at as int;
        commands := commands + [RelativeMove(MoveDistance)];
      }
      if curr <= startingWeight - (s.weight + s.checkOffset) {
        checksMade := checksMade + 1;
        if fault.Some? {
          return Failed(Anyhow(fault.value));
        }
        commands := commands + [AbruptStop];
        if t.median.Failure? {
          return Failed(Libra(t.median.error));
        }
        var medWeight := t.median.value;
        if medWeight > startingWeight - s.weight || checksMade >= MaxChecks {
          return Stopped(data, commands);
        }
        commands := commands + [RelativeMove(MoveDistance)];
        assert Step(s, startingWeight, before, t) == Continue(LoopState(data, checksMade, lastSpeedUpdate, commands));
        i := i + 1;
        continue;
      }
      if t.at > TotalNanos(s.timeout) {
        if fault.Some? {
          return Failed(Anyhow(fault.value));
        }
        commands := commands + [AbruptStop];
        return Stopped(data, commands);
      }
      checksMade := 0;
      assert Step(s, startingWeight, before, t) == Continue(LoopState(data, checksMade, lastSpeedUpdate, commands));
      i := i + 1;
    }
    r := Pending(LoopState(data, checksMade, lastSpeedUpdate, commands));
  }

  // What one iteration does.

  function After(r: StepResult): LoopState
    requires !r.Abort?
  {
    if r.Continue? then r.next else r.last
  }

  /** Each iteration that goes on or stops (rather than failing) has appended exactly one sample, its clock
      reading and its filtered weight; an unreadable weight fails before anything else happens. */
  lemma StepAppendsOneSample(s: DispenseSettings, start: real, st: LoopState, t: Tick)
    ensures t.reading.Failure? ==> Step(s, start, st, t) == Abort(Libra(t.reading.error))
    ensures !Step(s, start, st, t).Abort? ==>
              t.reading.Success? && After(Step(s, start, st, t)).data == Push(st.data, FromNanos(t.at), t.reading.value)
  {
  }

  /** A check happens exactly when the filtered weight has dropped by the target plus the check offset; it counts
      one more check and stops the loop when the median confirms the target or this was the third check in a
      row. Without a check the loop stops on timeout, otherwise it goes on with the count reset. */
  lemma StepDecision(s: DispenseSettings, start: real, st: LoopState, t: Tick)
    requires Healthy(t)
    ensures !Step(s, start, st, t).Abort?
    ensures var curr := t.reading.value;
            var r := Step(s, start, st, t);
            && (CheckFires(s, start, curr) ==>
                  && After(r).checksMade == st.checksMade + 1
                  && (r.Finish? <==> t.median.value > start - s.weight || st.checksMade + 1 >= MaxChecks))
            && (!CheckFires(s, start, curr) && TimedOut(s, t) ==> r.Finish?)
            && (!CheckFires(s, start, curr) && !TimedOut(s, t) ==> r.Continue? && r.next.checksMade == 0)
  {
  }

  /** The loop never goes on with three checks counted. */
  lemma StepKeepsChecksBelowThree(s: DispenseSettings, start: real, st: LoopState, t: Tick)
    ensures Step(s, start, st, t).Continue? ==> Step(s, start, st, t).next.checksMade < MaxChecks
  {
  }

  /** The speed is recomputed, and its timestamp refreshed, only when more than 25 ms have passed since the
      last update; earlier commands are never rewritten. */
  lemma StepSpeedRule(s: DispenseSettings, start: real, st: LoopState, t: Tick)
    requires !Step(s, start, st, t).Abort?
    ensures var n := After(Step(s, start, st, t));
            && |st.commands| <= |n.commands|
            && n.commands[..|st.commands|] == st.commands
            && (SpeedDue(st, t) ==>
                  && n.lastSpeedUpdate == t.at
                  && n.commands[|st.commands|] == SetVelocity(CommandedVelocity(t.reading.value, start, s)))
            && (!SpeedDue(st, t) ==>
                  && n.lastSpeedUpdate == st.lastSpeedUpdate
                  && forall k :: |st.commands| <= k < |n.commands| ==> !n.commands[k].SetVelocity?)
  {
    StepAppendsOneSample(s, start, st, t);
  }

  // What the whole loop does.

  predicate VelocitiesWithin(cmds: seq<MotorCommand>, lo: real, hi: real)
  {
    forall k :: 0 <= k < |cmds| && cmds[k].SetVelocity? ==> lo <= cmds[k].velocity <= hi
  }

  /** Every velocity the loop commands lies between the minimum and the maximum velocity. */
  lemma {:induction false} RunLoopVelocitiesWithin(s: DispenseSettings, start: real, st: LoopState, ticks: seq<Tick>)
    requires s.minVelocity <= s.maxVelocity
    requires VelocitiesWithin(st.commands, s.minVelocity, s.maxVelocity)
    ensures var r := RunLoop(s, start, st, ticks);
            (r.Stopped? ==> VelocitiesWithin(r.commands, s.minVelocity, s.maxVelocity))
            && (r.Pending? ==> VelocitiesWithin(r.state.commands, s.minVelocity, s.maxVelocity))
    decreases |ticks|
  {
    if ticks != [] {
      var r := Step(s, start, st, ticks[0]);
      if !r.Abort? {
        StepSpeedRule(s, start, st, ticks[0]);
        var n := After(r);
        assert VelocitiesWithin(n.commands, s.minVelocity, s.maxVelocity) by {
          forall k | 0 <= k < |n.commands| && n.commands[k].SetVelocity?
            ensures s.minVelocity <= n.commands[k].velocity <= s.maxVelocity
          {
            if k < |st.commands| {
              assert n.commands[k] == st.commands[k];
            }
          }
        }
        if r.Continue? {
          RunLoopVelocitiesWithin(s, start, n, ticks[1..]);
        }
      }
    }
  }

  lemma DispenseVelocitiesWithin(s: DispenseSettings, inputs: DispenseInputs)
    requires s.minVelocity <= s.maxVelocity
    ensures var r := DispenseRun(s, inputs);
            (r.Stopped? ==> VelocitiesWithin(r.commands, s.minVelocity, s.maxVelocity))
            && (r.Pending? ==> VelocitiesWithin(r.state.commands, s.minVelocity, s.maxVelocity))
  {
    if inputs.setupFault.None? && inputs.startingWeight.Success? {
      RunLoopVelocitiesWithin(s, inputs.startingWeight.value, InitialState(s, inputs), inputs.ticks);
    }
  }

  /** While the loop runs, fewer than three checks are counted at the top of every iteration. */
  lemma {:induction false} RunLoopPendingChecks(s: DispenseSettings, start: real, st: LoopState, ticks: seq<Tick>)
    requires st.checksMade < MaxChecks
    ensures RunLoop(s, start, st, ticks).Pending? ==> RunLoop(s, start, st, ticks).state.checksMade < MaxChecks
    decreases |ticks|
  {
    if ticks != [] {
      StepKeepsChecksBelowThree(s, start, st, ticks[0]);
      var r := Step(s, start, st, ticks[0]);
      if r.Continue? {
        RunLoopPendingChecks(s, start, r.next, ticks[1..]);
      }
    }
  }

  /** `after` is `before` followed by one sample from each of the first ticks, in order. */
  predicate CollectedFrom(before: Data, after: Data, ticks: seq<Tick>)
  {
    var n := |before.readings|;
    && n < |after.readings| <= n + |ticks|
    && after.readings[..n] == before.readings && after.times[..n] == before.times
    && forall j :: n <= j < |after.readings| ==>
         ticks[j - n].reading == Success(after.readings[j]) && after.times[j] == FromNanos(ticks[j - n].at)
  }

  /** One sample from the first tick, followed by what the remaining ticks collected, is what all of the
      ticks collected. */
  lemma CollectedPrepend(before: Data, mid: Data, after: Data, ticks: seq<Tick>)
    requires |ticks| > 0 && ticks[0].reading.Success?
    requires mid == Push(before, FromNanos(ticks[0].at), ticks[0].reading.value)
    requires CollectedFrom(mid, after, ticks[1..])
    ensures CollectedFrom(before, after, ticks)
  {
    var m := |before.readings|;
    assert mid.readings[..m] == before.readings && mid.times[..m] == before.times;
    assert after.readings[..m] == mid.readings[..m + 1][..m];
    assert after.times[..m] == mid.times[..m + 1][..m];
    forall j | m <= j < |after.readings|
      ensures ticks[j - m].reading == Success(after.readings[j]) && after.times[j] == FromNanos(ticks[j - m].at)
    {
      if j == m {
        assert after.readings[m] == after.readings[..m + 1][m];
        assert after.times[m] == after.times[..m + 1][m];
      } else {
        assert ticks[1..][j - (m + 1)] == ticks[j - m];
      }
    }
  }

  /** When the loop stops it returns the data collected so far: what it had plus one sample for each
      iteration it ran. */
  lemma {:induction false} RunLoopCollects(s: DispenseSettings, start: real, st: LoopState, ticks: seq<Tick>)
    ensures RunLoop(s, start, st, ticks).Stopped? ==> CollectedFrom(st.data, RunLoop(s, start, st, ticks).data, ticks)
    decreases |ticks|
  {
    if ticks != [] {
      var t := ticks[0];
      var r := Step(s, start, st, t);
      if !r.Abort? {
        StepAppendsOneSample(s, start, st, t);
        var n := After(r);
        if r.Continue? {
          RunLoopCollects(s, start, n, ticks[1..]);
          var d := RunLoop(s, start, st, ticks);
          if d.Stopped? {
            CollectedPrepend(st.data, n.data, d.data, ticks);
          }
        } else {
          var m := |st.data.readings|;
          assert n.data.readings[..m] == st.data.readings && n.data.times[..m] == st.data.times;
          assert RunLoop(s, start, st, ticks) == Stopped(n.data, n.commands);
        }
      }
    }
  }

  predicate Sorted(ticks: seq<Tick>)
  {
    forall i, j :: 0 <= i <= j < |ticks| ==> ticks[i].at <= ticks[j].at
  }

  /** Once every reading is past the timeout, the loop stops within the checks it still has left. */
  lemma {:induction false} StopsWhenTimedOut(s: DispenseSettings, start: real, st: LoopState, ticks: seq<Tick>)
    requires st.checksMade < MaxChecks && |ticks| >= MaxChecks - st.checksMade
    requires forall j :: 0 <= j < |ticks| ==> Healthy(ticks[j]) && TimedOut(s, ticks[j])
    ensures RunLoop(s, start, st, ticks).Stopped?
    decreases |ticks|
  {
    var t := ticks[0];
    StepDecision(s, start, st, t);
    var r := Step(s, start, st, t);
    if r.Continue? {
      assert r.next.checksMade == st.checksMade + 1;
      StopsWhenTimedOut(s, start, r.next, ticks[1..]);
    }
  }

  /** With hardware that answers and a clock that does not run backwards, the loop stops at most two
      iterations after the first reading past the timeout: only checks can postpone the timeout, and a third
      check in a row ends the dispense. */
  lemma {:induction false} StopsAfterTimeout(s: DispenseSettings, start: real, st: LoopState, ticks: seq<Tick>, k: nat)
    requires st.checksMade < MaxChecks
    requires forall j :: 0 <= j < |ticks| ==> Healthy(ticks[j])
    requires Sorted(ticks)
    requires k + MaxChecks <= |ticks| && TimedOut(s, ticks[k])
    ensures RunLoop(s, start, st, ticks).Stopped?
    decreases k
  {
    if k == 0 {
      StopsWhenTimedOut(s, start, st, ticks);
    } else {
      StepDecision(s, start, st, ticks[0]);
      StepKeepsChecksBelowThree(s, start, st, ticks[0]);
      var r := Step(s, start, st, ticks[0]);
      if r.Continue? {
        assert ticks[1..][k - 1] == ticks[k];
        StopsAfterTimeout(s, start, r.next, ticks[1..], k - 1);
      }
    }
  }

  lemma DispenseStopsAfterTimeout(s: DispenseSettings, inputs: DispenseInputs, k: nat)
    requires inputs.setupFault.None? && inputs.startingWeight.Success?
    requires forall j :: 0 <= j < |inputs.ticks| ==> Healthy(inputs.ticks[j])
    requires Sorted(inputs.ticks)
    requires k + MaxChecks <= |inputs.ticks| && TimedOut(s, inputs.ticks[k])
    ensures DispenseRun(s, inputs).Stopped?
  {
    StopsAfterTimeout(s, inputs.startingWeight.value, InitialState(s, inputs), inputs.ticks, k);
  }
}

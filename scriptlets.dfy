/** The scriptlets demo's two tick hooks: a step-timing statistic that is
    reported and cleared every 1000 samples, and a behaviour that changes an
    agent's speed once the simulated clock reaches 10 seconds. */
module Scriptlets {
  import opened Wrappers
  import opened SimRunner

  /** Number of samples averaged before the statistic is reported. */
  const SamplesPerReport: nat := 1000

  /** Simulated time from which the speed change applies. */
  const TriggerTime: real := 10.0

  /** Speed used when none is given. */
  const DefaultTargetSpeed: real := 1.0

  datatype StatsState = StatsState(timeSum: real, samplesCount: nat, currentStartTime: Option<real>)

  /** Subtracting from a start time that was never recorded fails. */
  datatype StatsError = NoStartTime

  /** The two readings of the wall clock taken by one `record_tick`: the end
      of the measured step, then the start of the next one. */
  datatype ClockReadings = ClockReadings(endTime: real, restartTime: real)

  /** The cleared statistic. */
  const Cleared: StatsState := StatsState(0.0, 0, None)

  /** One tick of a started measurement: add the step's duration, report the
      average in milliseconds and clear at the 1000th sample, then restart
      the clock. */
  function TickStarted(s: StatsState, clock: ClockReadings): (r: (StatsState, Option<real>))
    requires s.currentStartTime.Some?
    ensures r.0.currentStartTime == Some(clock.restartTime)
    ensures r.1.Some? <==> s.samplesCount + 1 == SamplesPerReport
    ensures r.1.Some? ==> r.0.samplesCount == 0 && r.0.timeSum == 0.0
    ensures r.1.None? ==> r.0.samplesCount == s.samplesCount + 1
    ensures r.1.None? ==> r.0.timeSum == s.timeSum + (clock.endTime - s.currentStartTime.value)
  {
    var sum := s.timeSum + (clock.endTime - s.currentStartTime.value);
    var count := s.samplesCount + 1;
    if count == SamplesPerReport then
      (Cleared.(currentStartTime := Some(clock.restartTime)), Some(sum / count as real * 1000.0))
    else
      (StatsState(sum, count, Some(clock.restartTime)), None)
  }

  /** `record_tick`: fails if no measurement was started. */
  function RecordTickSpec(s: StatsState, clock: ClockReadings): (r: Result<(StatsState, Option<real>), StatsError>)
    ensures r.Err? <==> s.currentStartTime.None?
  {
    if s.currentStartTime.None? then Err(NoStartTime) else Ok(TickStarted(s, clock))
  }

  /** The report is the sum of the 1000 step durations in milliseconds per
      sample; it is only computed with a count of 1000, never 0. */
  lemma ReportIsAverage(s: StatsState, clock: ClockReadings)
    requires s.currentStartTime.Some? && s.samplesCount + 1 == SamplesPerReport
    ensures TickStarted(s, clock).1
      == Some(s.timeSum + (clock.endTime - s.currentStartTime.value))
  {
    var sum := s.timeSum + (clock.endTime - s.currentStartTime.value);
    assert TickStarted(s, clock).1 == Some(sum / (s.samplesCount + 1) as real * 1000.0);
    assert (s.samplesCount + 1) as real == 1000.0;
    assert sum / 1000.0 * 1000.0 == sum;
    assert sum / (s.samplesCount + 1) as real * 1000.0 == sum;
  }

  /** From a started measurement with fewer than 1000 samples, the count
      stays below 1000 and the measurement stays started. */
  lemma TickKeepsCountInRange(s: StatsState, clock: ClockReadings)
    requires s.currentStartTime.Some? && s.samplesCount < SamplesPerReport
    ensures TickStarted(s, clock).0.samplesCount < SamplesPerReport
    ensures TickStarted(s, clock).0.currentStartTime.Some?
  {
  }

  /** The state after a run of ticks, and the reports made, in order. */
  function TickRun(s: StatsState, clocks: seq<ClockReadings>): (StatsState, seq<real>)
    requires s.currentStartTime.Some?
    decreases |clocks|
  {
    if clocks == [] then (s, [])
    else
      var step := TickStarted(s, clocks[0]);
      var rest := TickRun(step.0, clocks[1..]);
      (rest.0, (if step.1.Some? then [step.1.value] else []) + rest.1)
  }

  /** After n ticks the count is (c + n) mod 1000 and exactly (c + n) div
      1000 reports were made: one per 1000 ticks. */
  lemma {:induction false} ReportsOncePerThousand(s: StatsState, clocks: seq<ClockReadings>)
    requires s.currentStartTime.Some? && s.samplesCount < SamplesPerReport
    ensures TickRun(s, clocks).0.samplesCount == (s.samplesCount + |clocks|) % SamplesPerReport
    ensures |TickRun(s, clocks).1| == (s.samplesCount + |clocks|) / SamplesPerReport
    ensures TickRun(s, clocks).0.currentStartTime.Some?
    decreases |clocks|
  {
    if clocks != [] {
      var step := TickStarted(s, clocks[0]);
      ReportsOncePerThousand(step.0, clocks[1..]);
      if s.samplesCount + 1 == SamplesPerReport {
        ShiftByThousand(|clocks| - 1);
      }
    }
  }

  /** The step durations a run of ticks measures from start time `start`:
      each end reading minus the previous start (the first minus `start`). */
  function Deltas(start: real, clocks: seq<ClockReadings>): (d: seq<real>)
    ensures |d| == |clocks|
    decreases |clocks|
  {
    if clocks == [] then []
    else [clocks[0].endTime - start] + Deltas(clocks[0].restartTime, clocks[1..])
  }

  function Sum(xs: seq<real>): real
    decreases |xs|
  {
    if xs == [] then 0.0 else xs[0] + Sum(xs[1..])
  }

  /** The clock reading a run of ticks leaves as the start time. */
  function LastStart(start: real, clocks: seq<ClockReadings>): real {
    if clocks == [] then start else clocks[|clocks| - 1].restartTime
  }

  /** Within a window that does not reach 1000 samples nothing is reported,
      and the statistic accumulates exactly the measured durations. */
  lemma {:induction false} WindowAccumulates(s: StatsState, clocks: seq<ClockReadings>)
    requires s.currentStartTime.Some? && s.samplesCount + |clocks| < SamplesPerReport
    ensures TickRun(s, clocks) == (
      StatsState(s.timeSum + Sum(Deltas(s.currentStartTime.value, clocks)),
                 s.samplesCount + |clocks|,
                 Some(LastStart(s.currentStartTime.value, clocks))),
      [])
    decreases |clocks|
  {
    if clocks != [] {
      var t := s.currentStartTime.value;
      var step := TickStarted(s, clocks[0]);
      assert step.1.None? && step.0.currentStartTime == Some(clocks[0].restartTime);
      WindowAccumulates(step.0, clocks[1..]);
      var rest := TickRun(step.0, clocks[1..]);
      assert TickRun(s, clocks) == (rest.0, [] + rest.1);
      assert [] + rest.1 == [];
      assert Sum(Deltas(t, clocks)) == (clocks[0].endTime - t) + Sum(Deltas(clocks[0].restartTime, clocks[1..]));
      assert LastStart(t, clocks) == LastStart(clocks[0].restartTime, clocks[1..]) by {
        if |clocks| > 1 {
          assert clocks[1..][|clocks| - 2] == clocks[|clocks| - 1];
        }
      }
    }
  }

  /** The tick that completes 1000 samples makes the only report of the
      window: the average of the window's measured durations, in
      milliseconds, added to whatever the statistic held at its start; and
      the statistic is cleared with the clock restarted. */
  lemma {:induction false} WindowReport(s: StatsState, clocks: seq<ClockReadings>)
    requires s.currentStartTime.Some? && s.samplesCount < SamplesPerReport
    requires s.samplesCount + |clocks| == SamplesPerReport
    ensures TickRun(s, clocks).1
      == [(s.timeSum + Sum(Deltas(s.currentStartTime.value, clocks))) / SamplesPerReport as real * 1000.0]
    ensures TickRun(s, clocks).0
      == Cleared.(currentStartTime := Some(LastStart(s.currentStartTime.value, clocks)))
    decreases |clocks|
  {
    var t := s.currentStartTime.value;
    var step := TickStarted(s, clocks[0]);
    assert Sum(Deltas(t, clocks)) == (clocks[0].endTime - t) + Sum(Deltas(clocks[0].restartTime, clocks[1..]));
    if |clocks| == 1 {
      assert Deltas(clocks[0].restartTime, clocks[1..]) == [];
    } else {
      WindowReport(step.0, clocks[1..]);
      assert clocks[1..][|clocks| - 2] == clocks[|clocks| - 1];
    }
  }

  /** From a freshly started statistic, the first 1000 ticks make exactly one
      report, which is the average of the 1000 measured durations in
      milliseconds. */
  lemma FirstReportIsAverage(start: real, clocks: seq<ClockReadings>)
    requires |clocks| == SamplesPerReport
    ensures TickRun(Cleared.(currentStartTime := Some(start)), clocks).1
      == [Sum(Deltas(start, clocks)) / 1000.0 * 1000.0]
  {
    WindowReport(Cleared.(currentStartTime := Some(start)), clocks);
  }

  lemma ShiftByThousand(n: nat)
    ensures (n + 1000) % 1000 == n % 1000
    ensures (n + 1000) / 1000 == n / 1000 + 1
  {
    var q, r := n / 1000, n % 1000;
    assert n == 1000 * q + r && 0 <= r < 1000;
    assert n + 1000 == 1000 * (q + 1) + r;
  }

  class SimulationStats {
    var timeSum: real
    var samplesCount: nat
    var currentStartTime: Option<real>

    function State(): StatsState
      reads this
    {
      StatsState(timeSum, samplesCount, currentStartTime)
    }

    constructor ()
      ensures State() == Cleared
    {
      timeSum := 0.0;
      samplesCount := 0;
      currentStartTime := None;
    }

    method Reset()
      modifies this
      ensures State() == Cleared
    {
      timeSum := 0.0;
      samplesCount := 0;
      currentStartTime := None;
    }

    /** Records `now`, a reading of the wall clock, as the start time. */
    method Start(now: real)
      modifies this
      ensures State() == old(State()).(currentStartTime := Some(now))
    {
      currentStartTime := Some(now);
    }

    /** Records one tick; yields the average when it is reported. Without a
        start time nothing changes and the call fails. */
    method RecordTick(clock: ClockReadings) returns (r: Result<Option<real>, StatsError>)
      modifies this
      ensures var spec := RecordTickSpec(old(State()), clock);
        if spec.Err? then r == Err(spec.error) && State() == old(State())
        else r == Ok(spec.value.1) && State() == spec.value.0
    {
      if currentStartTime.None? {
        return Err(NoStartTime);
      }
      var delta := clock.endTime - currentStartTime.value;
      timeSum := timeSum + delta;
      samplesCount := samplesCount + 1;
      var report := None;
      if samplesCount == SamplesPerReport {
        report := Some(timeSum / samplesCount as real * 1000.0);
        Reset();
      }
      Start(clock.restartTime);
      r := Ok(report);
    }
  }

  datatype TriggerState = TriggerState(status: Status, agentSpeed: real)

  /** One `update` at simulated time `now`. */
  function UpdateSpec(s: TriggerState, now: real, target: real): TriggerState {
    if now >= TriggerTime then TriggerState(Success, target) else s
  }

  function UpdateRun(s: TriggerState, times: seq<real>, target: real): TriggerState
    decreases |times|
  {
    if times == [] then s else UpdateRun(UpdateSpec(s, times[0], target), times[1..], target)
  }

  /** Over a run of updates started in RUNNING, the behaviour has succeeded
      iff some update saw a time of at least 10 s; then the agent drives at
      the configured speed, otherwise its speed is untouched. */
  lemma {:induction false} TriggersOnceTimeReached(s: TriggerState, times: seq<real>, target: real)
    requires s.status == Running
    ensures var t := UpdateRun(s, times, target);
      (t.status == Success <==> exists i :: 0 <= i < |times| && times[i] >= TriggerTime)
      && (t.status == Success ==> t.agentSpeed == target)
      && (t.status != Success ==> t == s)
    decreases |times|
  {
    if times != [] {
      if times[0] >= TriggerTime {
        AfterSuccessStays(TriggerState(Success, target), times[1..], target);
      } else {
        TriggersOnceTimeReached(s, times[1..], target);
        assert forall i :: 1 <= i < |times| ==> times[i] == times[1..][i - 1];
        if t :| 0 <= t < |times[1..]| && times[1..][t] >= TriggerTime {
          assert times[t + 1] >= TriggerTime;
        }
      }
    }
  }

  lemma {:induction false} AfterSuccessStays(s: TriggerState, times: seq<real>, target: real)
    requires s == TriggerState(Success, target)
    ensures UpdateRun(s, times, target) == s
    decreases |times|
  {
    if times != [] {
      AfterSuccessStays(UpdateSpec(s, times[0], target), times[1..], target);
    }
  }

  /** Changes the named agent's speed once the simulated clock reaches 10 s. */
  class DelayedChangeSpeed {
    const agentName: string
    const speed: real
    var status: Status
    var agent: Agent?

    constructor (name: string, targetSpeed: real := DefaultTargetSpeed)
      ensures agentName == name && speed == targetSpeed
      ensures status == Invalid && agent == null
    {
      agentName := name;
      speed := targetSpeed;
      status := Invalid;
      agent := null;
    }

    method Initialise()
      modifies this
      ensures status == Running && agent == old(agent)
    {
      status := Running;
    }

    method LateSetup(found: Agent)
      modifies this
      ensures agent == found && status == old(status)
    {
      agent := found;
    }

    /** One update at simulated time `now`. */
    method Update(now: real) returns (result: Status)
      requires agent != null
      modifies this, agent
      ensures agent == old(agent) && result == status
      ensures TriggerState(status, agent.speed)
        == UpdateSpec(old(TriggerState(status, agent.speed)), now, speed)
      ensures agent.acceleration == old(agent.acceleration)
      ensures agent.angularRate == old(agent.angularRate)
    {
      if now >= TriggerTime {
        agent.SetSpeed(speed);
        status := Success;
      }
      result := status;
    }
  }
}

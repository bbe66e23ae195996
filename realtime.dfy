/** The realtime demo: a post-tick hook that counts ticks down and, each
    time the count reaches zero, raises the runner's real-time rate by 0.2,
    wrapping back to 0.6 once the sum reaches 1.6. Rates are exact reals
    here; the program computes them in binary floating point. */
module Realtime {
  import opened Wrappers
  import opened SimRunner
  import opened Helpers

  /** The period the demo passes to `tick_tock`. */
  const TreeTimeStep: real := 0.02

  /** The rate set at an adjustment that follows rate `rate`. */
  function NextRate(rate: real): (r: real)
    ensures r < 1.6
    ensures r == 0.6 || r == rate + 0.2
    ensures rate >= 0.0 ==> r >= 0.2
    ensures rate >= 0.4 ==> r >= 0.6
  {
    var raised := rate + 0.2;
    if raised >= 1.6 then 0.6 else raised
  }

  /** `int(rate * 400)`: the ticks to wait after an adjustment to `rate`. */
  function StepsFor(rate: real): (n: int)
    ensures rate >= 0.0 ==> 0 <= n && n as real <= rate * 400.0 < (n + 1) as real
  {
    (rate * 400.0).Floor
  }

  /** `int(realtime_rate * 800)`: the first window, twice as long as the
      later ones to absorb start-up time. */
  function InitialSteps(rate: real): (n: int)
    ensures rate >= 0.0 ==> 0 <= n && n as real <= rate * 800.0 < (n + 1) as real
    ensures rate == 0.0 ==> n == 0
  {
    (rate * 800.0).Floor
  }

  /** The rate changer's counter together with the runner's rate. */
  datatype RateState = RateState(steps: int, rate: real)

  /** The counter never goes negative and the rate is one the argument
      guard accepts. */
  predicate Valid(s: RateState) {
    s.steps >= 0 && s.rate >= 0.0
  }

  /** The state right after an adjustment from rate `rate`. */
  function Adjusted(rate: real): RateState {
    RateState(StepsFor(NextRate(rate)), NextRate(rate))
  }

  /** One invocation of the hook. While the counter is positive it is
      decremented by exactly one and the rate is left alone; at zero the
      rate is adjusted and the counter reloaded with `int(new_rate * 400)`. */
  function AfterTick(s: RateState): (t: RateState)
    ensures Valid(s) ==> Valid(t)
    ensures t.rate != s.rate ==> t.rate < 1.6
    ensures s.steps != 0 ==> t == RateState(s.steps - 1, s.rate)
    ensures s.steps == 0 ==> t.rate == NextRate(s.rate) && t.steps == StepsFor(t.rate)
  {
    if s.steps == 0 then Adjusted(s.rate) else RateState(s.steps - 1, s.rate)
  }

  /** `n` invocations of the hook. */
  function AfterTicks(s: RateState, n: nat): RateState
    decreases n
  {
    if n == 0 then s else AfterTicks(AfterTick(s), n - 1)
  }

  /** Counting down: for `j` up to the counter, `j` ticks only decrement. */
  lemma {:induction false} Countdown(s: RateState, j: nat)
    requires j <= s.steps
    ensures AfterTicks(s, j) == RateState(s.steps - j, s.rate)
    decreases j
  {
    if j > 0 {
      assert AfterTick(s) == RateState(s.steps - 1, s.rate);
      Countdown(AfterTick(s), j - 1);
    }
  }

  /** With a non-negative counter `c`, the adjustment happens on tick
      `c + 1` exactly. */
  lemma AdjustsAfterCountdown(s: RateState)
    requires s.steps >= 0
    ensures AfterTicks(s, s.steps + 1) == Adjusted(s.rate)
    ensures forall j :: 0 <= j <= s.steps ==> AfterTicks(s, j).rate == s.rate
  {
    Countdown(s, s.steps);
    AfterTicksSplit(s, s.steps, 1);
    forall j | 0 <= j <= s.steps ensures AfterTicks(s, j).rate == s.rate {
      Countdown(s, j);
    }
  }

  lemma {:induction false} AfterTicksSplit(s: RateState, m: nat, n: nat)
    ensures AfterTicks(s, m + n) == AfterTicks(AfterTicks(s, m), n)
    decreases m
  {
    if m > 0 {
      AfterTicksSplit(AfterTick(s), m - 1, n);
    }
  }

  /** Consecutive adjustments are `int(r * 400) + 1` ticks apart, `r` being
      the rate set at the earlier one: no tick in between changes the rate. */
  lemma AdjustmentSpacing(rate: real)
    requires rate >= 0.0
    ensures var a := Adjusted(rate);
            a.steps == StepsFor(a.rate)
            && AfterTicks(a, StepsFor(a.rate) + 1) == Adjusted(a.rate)
            && forall j :: 0 <= j <= StepsFor(a.rate) ==> AfterTicks(a, j).rate == a.rate
  {
    AdjustsAfterCountdown(Adjusted(rate));
  }

  /** The rates set by successive adjustments, starting after rate `rate`. */
  function AdjustedRates(rate: real, k: nat): (rates: seq<real>)
    ensures |rates| == k
    ensures forall i :: 0 <= i < k ==> rates[i] < 1.6
    decreases k
  {
    if k == 0 then [] else [NextRate(rate)] + AdjustedRates(NextRate(rate), k - 1)
  }

  /** From the default rate 1.0 the adjustments cycle through 1.2, 1.4,
      0.6, 0.8 and back to 1.0, and every rate on the cycle stays in
      [0.6, 1.6). */
  lemma RateCycle()
    ensures AdjustedRates(1.0, 5) == [1.2, 1.4, 0.6, 0.8, 1.0]
    ensures forall r :: r in AdjustedRates(1.0, 5) ==> 0.6 <= r < 1.6
  {
    assert NextRate(1.0) == 1.2;
    assert NextRate(1.2) == 1.4;
    assert NextRate(1.4) == 0.6;
    assert NextRate(0.6) == 0.8;
    assert NextRate(0.8) == 1.0;
  }

  /** Once the rate is at least 0.4, every later adjustment lands in
      [0.6, 1.6). */
  lemma {:induction false} RatesStayInBand(rate: real, k: nat)
    requires rate >= 0.4
    ensures forall i :: 0 <= i < k ==> 0.6 <= AdjustedRates(rate, k)[i] < 1.6
    decreases k
  {
    if k > 0 {
      RatesStayInBand(NextRate(rate), k - 1);
      var rates := AdjustedRates(rate, k);
      assert rates[1..] == AdjustedRates(NextRate(rate), k - 1);
      forall i | 0 <= i < k ensures 0.6 <= rates[i] < 1.6 {
        if i > 0 { assert rates[i] == rates[1..][i - 1]; }
      }
    }
  }

  /** At start-up with the default rate the first window is 800 ticks: the
      rate is still 1.0 after 800 invocations and becomes 1.2 on the 801st,
      which reloads the counter with 480. */
  lemma DefaultStartup()
    ensures InitialSteps(DefaultRealtimeRate) == 800
    ensures AfterTicks(RateState(800, 1.0), 800) == RateState(0, 1.0)
    ensures AfterTicks(RateState(800, 1.0), 801) == RateState(480, 1.2)
  {
    Countdown(RateState(800, 1.0), 800);
    AdjustsAfterCountdown(RateState(800, 1.0));
    assert NextRate(1.0) == 1.2;
    assert (1.2 * 400.0).Floor == 480;
  }

  /** With rate 0 the first window is empty: the first tick adjusts. */
  lemma ZeroRateAdjustsAtOnce()
    ensures InitialSteps(0.0) == 0
    ensures AfterTick(RateState(InitialSteps(0.0), 0.0)) == RateState(80, 0.2)
  {
    assert (0.2 * 400.0).Floor == 80;
  }

  /** What the hook reports after an adjustment. */
  datatype Adjustment = Adjustment(rate: real, steps: int, lastMeasuredRate: real)

  class RealtimeRateChanger {
    var steps: int

    constructor (initialSteps: int)
      ensures steps == initialSteps
    {
      steps := initialSteps;
    }

    /** The post-tick hook. `measuredRate` is the runner's measured
        real-time rate, read only to be reported. */
    method Tick(runner: Runner, measuredRate: real) returns (report: Option<Adjustment>)
      modifies this, runner
      ensures RateState(steps, runner.rate) == AfterTick(old(RateState(steps, runner.rate)))
      ensures runner.State() == old(runner.State()).(rate := runner.rate)
      ensures report.Some? <==> old(steps) == 0
      ensures report.Some? ==> report.value == Adjustment(runner.rate, steps, measuredRate)
    {
      if steps == 0 {
        var lastRoundRate := measuredRate;
        var rate := runner.rate + 0.2;
        if rate >= 1.6 {
          rate := 0.6;
        }
        steps := (rate * 400.0).Floor;
        runner.SetRealtimeRate(rate);
        report := Some(Adjustment(rate, steps, lastRoundRate));
      } else {
        steps := steps - 1;
        report := None;
      }
    }
  }

  /** The set-up of `main`: the runner starts at the requested rate, the
      hook with the doubled first window, and the run length follows the
      duration rule with a 0.02 s period. */
  method Setup(args: CommonArgs) returns (runner: Runner, changer: RealtimeRateChanger, mode: RunMode)
    requires CheckPositiveFloatOrZero(args.realtimeRate).Ok?
    ensures fresh(runner) && fresh(changer)
    ensures runner.State() == RunnerState(args.paused, [], false, args.realtimeRate, true)
    ensures Valid(RateState(changer.steps, runner.rate))
    ensures changer.steps == InitialSteps(args.realtimeRate)
    ensures mode == RunModeFor(args.duration, TreeTimeStep)
  {
    var initialSteps := (args.realtimeRate * 800.0).Floor;
    changer := new RealtimeRateChanger(initialSteps);
    runner := new Runner(args.realtimeRate, args.paused);
    mode := RunModeFor(args.duration, TreeTimeStep);
  }
}

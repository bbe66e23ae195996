/** The argument rules shared by every demo: the realtime-rate guard, the
    defaults of the common options and the rule that turns a requested
    duration into a run length. */
module Helpers {
  import opened Wrappers

  datatype ArgumentTypeError = NotPositiveFloat(value: real)

  /** The `type=` converter of `--realtime_rate`: negative values are
      rejected, zero and positive values are passed through unchanged.
      The string-to-float conversion before it is not modelled. */
  function CheckPositiveFloatOrZero(value: real): (r: Result<real, ArgumentTypeError>)
    ensures r.Ok? <==> value >= 0.0
    ensures r.Ok? ==> r.value == value
    ensures r.Err? ==> r.error == NotPositiveFloat(value)
  {
    if value < 0.0 then Err(NotPositiveFloat(value)) else Ok(value)
  }

  /** The options every demo shares, with the values argparse gives them
      when the user passes none. */
  datatype CommonArgs = CommonArgs(
    duration: real,
    realtimeRate: real,
    paused: bool,
    log: bool,
    logfileName: string,
    bare: bool,
    layout: string)

  const DefaultDuration: real := -1.0
  const DefaultRealtimeRate: real := 1.0

  /** The options' defaults, for a demo that passes `defaultDuration`. */
  function DefaultArgs(defaultDuration: real): (a: CommonArgs)
    ensures a.duration == defaultDuration
    ensures CheckPositiveFloatOrZero(a.realtimeRate) == Ok(1.0)
    ensures !a.paused && !a.log && !a.bare && a.logfileName == ""
  {
    CommonArgs(defaultDuration, DefaultRealtimeRate, false, false, "", false,
               "layout_with_teleop.config")
  }

  /** How `tick_tock` is called: without a bound, or with a number of
      iterations. */
  datatype RunMode = Indefinite | Bounded(iterations: nat)

  /** The run-length rule of every demo's `main`: a negative duration ticks
      forever; otherwise the tree ticks `int(duration / period)` times. */
  function RunModeFor(duration: real, period: real): (m: RunMode)
    requires period > 0.0
    ensures m.Indefinite? <==> duration < 0.0
    ensures m.Bounded? ==> m.iterations as real * period <= duration
    ensures m.Bounded? ==> duration < (m.iterations + 1) as real * period
  {
    if duration < 0.0 then Indefinite
    else
      FloorBounds(duration, period);
      Bounded((duration / period).Floor)
  }

  lemma MultiplyBounds(n: int, q: real, period: real)
    requires period > 0.0 && n as real <= q < (n + 1) as real
    ensures n as real * period <= q * period < (n + 1) as real * period
  {
  }

  lemma FloorBounds(duration: real, period: real)
    requires period > 0.0 && duration >= 0.0
    ensures 0 <= (duration / period).Floor
    ensures (duration / period).Floor as real * period <= duration
    ensures duration < ((duration / period).Floor + 1) as real * period
  {
    var q := duration / period;
    var n := q.Floor;
    assert q * period == duration;
    assert n as real <= q < (n + 1) as real;
    MultiplyBounds(n, q, period);
    assert q * period < (n + 1) as real * period;
    assert duration < (n + 1) as real * period;
  }

  /** A longer duration never yields fewer iterations. */
  lemma RunLengthMonotone(d1: real, d2: real, period: real)
    requires period > 0.0 && 0.0 <= d1 <= d2
    ensures RunModeFor(d1, period).iterations <= RunModeFor(d2, period).iterations
  {
  }
}

/** Pure step/jump time arithmetic (src/lib/time.ts). Times are seconds, modelled
    as exact reals; a missing duration (`undefined` or `null`) is `None`. */
module Time {
  import opened Optional

  /** A step direction: -1 is back, 1 is forward. */
  type Direction = d: int | d == -1 || d == 1 witness 1

  /** Distance between two times. */
  function Dist(x: real, y: real): real {
    if x <= y then y - x else x - y
  }

  /** `Math.max(0, x)`: the time floored at zero, with no upper bound. */
  function FloorAtZero(x: real): (r: real)
    ensures r >= 0.0
    ensures x >= 0.0 ==> r == x
    ensures forall y :: y >= 0.0 ==> Dist(r, x) <= Dist(y, x)
  {
    if x < 0.0 then 0.0 else x
  }

  /** Clamps a time to [0, duration]; a non-positive duration clamps everything to 0.
      For a positive duration the result is the point of [0, duration] nearest to
      the input. */
  function ClampTime(time: real, duration: real): (r: real)
    ensures duration <= 0.0 ==> r == 0.0
    ensures duration > 0.0 ==> 0.0 <= r <= duration
    ensures duration > 0.0 ==> forall y :: 0.0 <= y <= duration ==> Dist(r, time) <= Dist(y, time)
  {
    if duration <= 0.0 then 0.0
    else if time < 0.0 then 0.0
    else if time > duration then duration
    else time
  }

  /** Jumps by a signed number of seconds: clamped to [0, duration] when a duration
      is given, else floored at 0. */
  function JumpTime(current: real, seconds: real, duration: Option<real>): (r: real)
    ensures r >= 0.0
    ensures duration.Some? && duration.value > 0.0 ==> r <= duration.value
    ensures duration.None? ==> r == FloorAtZero(current + seconds)
    ensures duration.Some? ==> r == ClampTime(current + seconds, duration.value)
  {
    var next := current + seconds;
    if duration.Some? then ClampTime(next, duration.value) else FloorAtZero(next)
  }

  /** Steps by `stepSize` in `direction`; the same clamping policy as a jump by the
      signed step. */
  function StepTime(current: real, stepSize: real, direction: Direction, duration: Option<real>): (r: real)
    ensures r == JumpTime(current, direction as real * stepSize, duration)
    ensures r >= 0.0
  {
    var next := current + direction as real * stepSize;
    if duration.Some? then ClampTime(next, duration.value) else FloorAtZero(next)
  }

  /** A time already in [0, duration] is left unchanged by clamping. */
  lemma ClampInRange(time: real, duration: real)
    requires 0.0 <= time <= duration
    ensures ClampTime(time, duration) == time
  {
  }

  /** Clamping twice is clamping once. */
  lemma ClampIdempotent(time: real, duration: real)
    ensures ClampTime(ClampTime(time, duration), duration) == ClampTime(time, duration)
  {
  }

  /** Clamping preserves the order of times. */
  lemma ClampMonotone(t1: real, t2: real, duration: real)
    requires t1 <= t2
    ensures ClampTime(t1, duration) <= ClampTime(t2, duration)
  {
  }

  /** A zero jump from a time in range is the identity. */
  lemma JumpZero(current: real, duration: Option<real>)
    requires current >= 0.0
    requires duration.Some? ==> 0.0 < duration.value && current <= duration.value
    ensures JumpTime(current, 0.0, duration) == current
  {
  }

  /** Stepping forward and then back by the same size returns to the start when
      neither step was clamped. */
  lemma StepRoundTrip(current: real, stepSize: real, duration: Option<real>)
    requires 0.0 <= current && 0.0 <= current + stepSize
    requires duration.Some? ==> 0.0 < duration.value && current <= duration.value && current + stepSize <= duration.value
    ensures StepTime(StepTime(current, stepSize, 1, duration), stepSize, -1, duration) == current
  {
  }

  /** Two jumps compose into one when the first was not clamped. */
  lemma JumpCompose(current: real, a: real, b: real, duration: Option<real>)
    requires 0.0 <= current + a
    requires duration.Some? ==> current + a <= duration.value && 0.0 < duration.value
    ensures JumpTime(JumpTime(current, a, duration), b, duration) == JumpTime(current, a + b, duration)
  {
  }

  /** The scenarios of the time unit tests. */
  lemma TimeScenarios()
    ensures ClampTime(-1.0, 100.0) == 0.0 && ClampTime(50.0, 100.0) == 50.0 && ClampTime(101.0, 100.0) == 100.0
    ensures ClampTime(0.0, 100.0) == 0.0 && ClampTime(100.0, 100.0) == 100.0
    ensures ClampTime(5.0, 0.0) == 0.0
    ensures StepTime(0.0, 0.1, 1, None) == 0.1 && StepTime(1.0, 0.1, -1, None) == 0.9
    ensures StepTime(0.0, 0.1, -1, None) == 0.0
    ensures StepTime(10.0, 0.033, 1, None) == 10.033 && StepTime(10.0, 0.05, -1, None) == 9.95
    ensures StepTime(0.05, 0.1, -1, None) == 0.0 && StepTime(0.0, 0.1, -1, Some(100.0)) == 0.0
    ensures StepTime(99.9, 0.1, 1, Some(100.0)) == 100.0 && StepTime(100.0, 0.1, 1, Some(100.0)) == 100.0
    ensures JumpTime(0.0, 5.0, None) == 5.0 && JumpTime(10.0, -3.0, None) == 7.0 && JumpTime(0.0, -5.0, None) == 0.0
    ensures JumpTime(0.0, -5.0, Some(100.0)) == 0.0 && JumpTime(98.0, 5.0, Some(100.0)) == 100.0
  {
  }
}

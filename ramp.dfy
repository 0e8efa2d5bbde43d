/** The two open-loop trajectories the control loop feeds forward:
    the rate-limited setpoint ramp (with its lookahead value) used in PID
    mode, and the linear voltage ramp used in voltage mode. */
module Ramp {
  import opened Reals

  /** How far ahead, in seconds, the lookahead setpoint is evaluated. */
  const LOOKAHEAD_SECONDS: real := 20.0

  /** Setpoint at time `t` of a ramp that started at `t0` from `initial`
      towards `target` at `rate` degrees per minute. The direction is upward
      exactly when `target > initial`; the value is clamped at the target. */
  function Setpoint(initial: real, target: real, rate: real, t0: real, t: real): (r: real)
    ensures target > initial ==> r <= target
    ensures target <= initial ==> r >= target
    ensures t == t0 ==> r == initial
  {
    if target > initial then Min(initial + rate / 60.0 * (t - t0), target)
    else Max(initial - rate / 60.0 * (t - t0), target)
  }

  /** The same ramp evaluated `LOOKAHEAD_SECONDS` later. */
  function Lookahead(initial: real, target: real, rate: real, t0: real, t: real): (r: real)
    ensures target > initial ==> r <= target
    ensures target <= initial ==> r >= target
  {
    Setpoint(initial, target, rate, t0, t + LOOKAHEAD_SECONDS)
  }

  /** The ramp's travel `rate / 60 * (t - t0)` grows with `t` by exactly the
      travel over the extra time, which is non-negative for a non-negative rate. */
  lemma Advance(rate: real, t0: real, t1: real, t2: real)
    requires rate >= 0.0 && t1 <= t2
    ensures rate / 60.0 * (t2 - t0) - rate / 60.0 * (t1 - t0) == rate / 60.0 * (t2 - t1)
    ensures rate / 60.0 * (t2 - t1) >= 0.0
  {
    var k := rate / 60.0;
    assert k >= 0.0;
    assert k * (t2 - t0) - k * (t1 - t0) == k * (t2 - t1);
    assert k * (t2 - t1) >= 0.0;
  }

  /** For a non-negative rate the setpoint moves monotonically toward the
      target: non-decreasing on an upward ramp, non-increasing on a
      downward one. */
  lemma SetpointMonotone(initial: real, target: real, rate: real, t0: real, t1: real, t2: real)
    requires rate >= 0.0 && t1 <= t2
    ensures target > initial ==>
      Setpoint(initial, target, rate, t0, t1) <= Setpoint(initial, target, rate, t0, t2)
    ensures target <= initial ==>
      Setpoint(initial, target, rate, t0, t1) >= Setpoint(initial, target, rate, t0, t2)
  {
    Advance(rate, t0, t1, t2);
  }

  /** For a non-negative rate the lookahead setpoint is at or beyond the
      current setpoint in the ramp's direction, and never passes the target. */
  lemma LookaheadLeads(initial: real, target: real, rate: real, t0: real, t: real)
    requires rate >= 0.0
    ensures target > initial ==>
      Setpoint(initial, target, rate, t0, t) <= Lookahead(initial, target, rate, t0, t) <= target
    ensures target <= initial ==>
      Setpoint(initial, target, rate, t0, t) >= Lookahead(initial, target, rate, t0, t) >= target
  {
    SetpointMonotone(initial, target, rate, t0, t, t + LOOKAHEAD_SECONDS);
  }

  /** From its start on, a ramp with a non-negative rate stays between its
      initial value and its target. */
  lemma SetpointBetween(initial: real, target: real, rate: real, t0: real, t: real)
    requires rate >= 0.0 && t >= t0
    ensures Min(initial, target) <= Setpoint(initial, target, rate, t0, t) <= Max(initial, target)
  {
    SetpointMonotone(initial, target, rate, t0, t0, t);
  }

  /** A ramp with a positive rate reaches its target once the time needed to
      cover the distance at that rate has elapsed, and stays there. */
  lemma SetpointReachesTarget(initial: real, target: real, rate: real, t0: real, t: real)
    requires rate > 0.0
    requires t - t0 >= 60.0 * Abs(target - initial) / rate
    ensures Setpoint(initial, target, rate, t0, t) == target
  {
    var d := t - t0;
    assert rate / 60.0 * d >= Abs(target - initial) by {
      assert rate / 60.0 * (60.0 * Abs(target - initial) / rate) == Abs(target - initial);
      assert rate / 60.0 * d - rate / 60.0 * (60.0 * Abs(target - initial) / rate)
        == rate / 60.0 * (d - 60.0 * Abs(target - initial) / rate);
    }
  }

  /** The ramp is rate-limited: between two instants it moves by at most
      `rate / 60` degrees per second of separation. */
  lemma SetpointRateLimited(initial: real, target: real, rate: real, t0: real, t1: real, t2: real)
    requires rate >= 0.0 && t1 <= t2
    ensures Abs(Setpoint(initial, target, rate, t0, t2) - Setpoint(initial, target, rate, t0, t1))
      <= rate / 60.0 * (t2 - t1)
  {
    Advance(rate, t0, t1, t2);
  }

  /** A restart at `now` from the live temperature gives no jump: the ramp
      starts at that temperature, and `d` seconds later it has moved by at
      most `rate / 60 * d`. */
  lemma RestartWithoutJump(temp: real, target: real, rate: real, now: real, later: real)
    requires rate >= 0.0 && now <= later
    ensures Setpoint(temp, target, rate, now, now) == temp
    ensures Abs(Setpoint(temp, target, rate, now, later) - temp) <= rate / 60.0 * (later - now)
  {
    SetpointRateLimited(temp, target, rate, now, now, later);
  }

  /** With a zero rate the setpoint stays at its initial value for ever; it
      does not fall back to the target. */
  lemma ZeroRateHolds(initial: real, target: real, t0: real, t: real)
    ensures Setpoint(initial, target, 0.0, t0, t) == initial
    ensures Lookahead(initial, target, 0.0, t0, t) == initial
  {
    assert 0.0 / 60.0 * (t - t0) == 0.0;
    assert 0.0 / 60.0 * (t + LOOKAHEAD_SECONDS - t0) == 0.0;
  }

  /** Voltage `elapsed` seconds into a linear ramp from `start` to `v` that
      lasts `rampTime` seconds; past the end the ramp holds `v`. */
  function Voltage(start: real, v: real, rampTime: real, elapsed: real): (r: real)
    requires rampTime != 0.0
    ensures elapsed >= rampTime ==> r == v
    ensures 0.0 <= elapsed <= rampTime ==> Min(start, v) <= r <= Max(start, v)
    ensures elapsed == 0.0 && rampTime > 0.0 ==> r == start
  {
    if elapsed <= rampTime then
      VoltageBetween(start, v, rampTime, elapsed);
      start + (v - start) / rampTime * elapsed
    else v
  }

  lemma VoltageBetween(start: real, v: real, rampTime: real, elapsed: real)
    requires rampTime != 0.0
    ensures elapsed == rampTime ==> start + (v - start) / rampTime * elapsed == v
    ensures 0.0 <= elapsed <= rampTime ==>
      Min(start, v) <= start + (v - start) / rampTime * elapsed <= Max(start, v)
  {
    var f := elapsed / rampTime;
    assert (v - start) / rampTime * elapsed == (v - start) * f;
    if 0.0 <= elapsed <= rampTime {
      assert 0.0 <= f <= 1.0;
      if v >= start {
        assert 0.0 <= (v - start) * f <= (v - start);
      } else {
        assert (v - start) <= (v - start) * f <= 0.0;
      }
    }
  }

  /** On a ramp of positive duration the voltage moves monotonically from
      `start` toward `v`. */
  lemma VoltageMonotone(start: real, v: real, rampTime: real, e1: real, e2: real)
    requires rampTime > 0.0 && 0.0 <= e1 <= e2
    ensures v >= start ==> Voltage(start, v, rampTime, e1) <= Voltage(start, v, rampTime, e2)
    ensures v <= start ==> Voltage(start, v, rampTime, e1) >= Voltage(start, v, rampTime, e2)
  {
    if e2 <= rampTime {
      assert (v - start) / rampTime * e2 - (v - start) / rampTime * e1
        == (v - start) / rampTime * (e2 - e1);
      var slope := (v - start) / rampTime;
      if v >= start {
        assert slope >= 0.0;
        assert slope * (e2 - e1) >= 0.0;
      }
      if v <= start {
        assert slope <= 0.0;
        assert slope * (e2 - e1) <= 0.0;
      }
    }
  }
}

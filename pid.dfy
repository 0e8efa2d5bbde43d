/** The PID controller of the temperature controller: a proportional,
    integral and derivative response to the error between the setpoint and
    the measured temperature, blended with a proportional response to a
    lookahead setpoint, clamped to the power supply's voltage range, with
    anti-windup back-calculation of the integral term.

    Arithmetic is over `real`; floating-point rounding is not modelled. */
module Pid {
  import opened Wrappers
  import opened Reals

  /** Lowest and highest voltage the controller may command. */
  const MIN_V: real := 0.0
  const MAX_V: real := 24.0

  /** Weight of the proportional response to the lookahead error. */
  const WEIGHT: real := 0.3

  /** `max(MIN_V, min(MAX_V, x))`: the nearest value to `x` inside the range. */
  function Clamp(x: real): (r: real)
    ensures MIN_V <= r <= MAX_V
    ensures MIN_V <= x <= MAX_V ==> r == x
    ensures x < MIN_V ==> r == MIN_V
    ensures x > MAX_V ==> r == MAX_V
  {
    Max(MIN_V, Min(MAX_V, x))
  }

  /** The part of the controller's state that outlives one call of `update`. */
  datatype PidState = PidState(
    kc: real, ki: real, kd: real,
    setPoint: real,
    laterSp: real,
    prevTime: real,   // 0 means "no previous sample yet"
    iError: real,     // integral accumulator
    pvError: real,    // error of the previous sample
    output: real)     // last returned command

  /** State of a controller created with the given gains. */
  function Fresh(kc: real, ki: real, kd: real): PidState
  {
    PidState(kc, ki, kd, 0.0, 0.0, 0.0, 0.0, 0.0, 0.0)
  }

  function Error(s: PidState, pv: real): real { s.setPoint - pv }

  function LaterError(s: PidState, pv: real): real { s.laterSp - pv }

  /** Blended proportional response used when there is no previous sample. */
  function Proportional(s: PidState, pv: real): real
  {
    s.kc * ((1.0 - WEIGHT) * Error(s, pv) + WEIGHT * LaterError(s, pv))
  }

  /** Integral accumulator advanced by the trapezoidal rule over `t - prevTime`. */
  function Integrated(s: PidState, t: real, pv: real): real
  {
    s.iError + s.ki * (s.pvError + Error(s, pv)) / 2.0 * (t - s.prevTime)
  }

  /** Backward-difference derivative of the error. */
  function Derivative(s: PidState, t: real, pv: real): real
    requires t != s.prevTime
  {
    (Error(s, pv) - s.pvError) / (t - s.prevTime)
  }

  /** The PID response (without the lookahead term) for a given integral value. */
  function Inner(s: PidState, t: real, pv: real, integral: real): real
    requires t != s.prevTime
  {
    s.kc * Error(s, pv) + integral + s.kd * Derivative(s, t, pv)
  }

  /** The integral value for which the PID response equals `bound`. */
  function BackCalculated(s: PidState, t: real, pv: real, bound: real): real
    requires t != s.prevTime
  {
    bound - s.kc * Error(s, pv) - s.kd * Derivative(s, t, pv)
  }

  /** Unclamped output on a call that has a previous sample. */
  function Raw(s: PidState, t: real, pv: real): real
    requires t != s.prevTime
  {
    (1.0 - WEIGHT) * Inner(s, t, pv, Integrated(s, t, pv)) + WEIGHT * s.kc * LaterError(s, pv)
  }

  /** A call of `update(t, pv)` is defined unless it would divide by a zero time step. */
  predicate Defined(s: PidState, t: real)
  {
    s.prevTime != 0.0 ==> t != s.prevTime
  }

  /** The state after one call of `update(t, pv)`. */
  function Step(s: PidState, t: real, pv: real): (r: PidState)
    requires Defined(s, t)
    // the command always lies in the actuator's range
    ensures MIN_V <= r.output <= MAX_V
    // gains and setpoints are untouched; the error and time are committed
    ensures r.kc == s.kc && r.ki == s.ki && r.kd == s.kd
    ensures r.setPoint == s.setPoint && r.laterSp == s.laterSp
    ensures r.pvError == s.setPoint - pv && r.prevTime == t
  {
    if s.prevTime == 0.0 then
      s.(output := Clamp(Proportional(s, pv)), pvError := Error(s, pv), prevTime := t)
    else
      var raw := Raw(s, t, pv);
      var out := Clamp(raw);
      var i := if raw < MIN_V || raw > MAX_V then BackCalculated(s, t, pv, out)
               else Integrated(s, t, pv);
      s.(output := out, iError := i, pvError := Error(s, pv), prevTime := t)
  }

  /** `Step` on each of its four paths, as an explicit record. */
  lemma StepFirstPath(s: PidState, t: real, pv: real)
    requires s.prevTime == 0.0
    ensures Step(s, t, pv)
      == s.(output := Clamp(Proportional(s, pv)), pvError := Error(s, pv), prevTime := t)
  {
  }

  lemma StepLaterPath(s: PidState, t: real, pv: real, out: real, integral: real)
    requires s.prevTime != 0.0 && t != s.prevTime
    requires MIN_V <= Raw(s, t, pv) <= MAX_V ==> out == Raw(s, t, pv) && integral == Integrated(s, t, pv)
    requires Raw(s, t, pv) < MIN_V ==> out == MIN_V && integral == BackCalculated(s, t, pv, MIN_V)
    requires Raw(s, t, pv) > MAX_V ==> out == MAX_V && integral == BackCalculated(s, t, pv, MAX_V)
    ensures Step(s, t, pv)
      == s.(output := out, iError := integral, pvError := Error(s, pv), prevTime := t)
  {
  }

  /** What each path of `update` does with the output and the integral. */
  lemma StepPaths(s: PidState, t: real, pv: real)
    requires Defined(s, t)
    // first call: blended proportional response only, integral untouched
    ensures s.prevTime == 0.0 ==>
      Step(s, t, pv).iError == s.iError && Step(s, t, pv).output == Clamp(Proportional(s, pv))
    // later calls inside the range: no clamping, trapezoidal integral kept
    ensures s.prevTime != 0.0 && MIN_V <= Raw(s, t, pv) <= MAX_V ==>
      Step(s, t, pv).output == Raw(s, t, pv) && Step(s, t, pv).iError == Integrated(s, t, pv)
    // saturation high: anti-windup makes the PID part equal MAX_V exactly
    ensures s.prevTime != 0.0 && Raw(s, t, pv) > MAX_V ==>
      Step(s, t, pv).output == MAX_V && Inner(s, t, pv, Step(s, t, pv).iError) == MAX_V
    // saturation low: anti-windup makes the PID part equal MIN_V exactly
    ensures s.prevTime != 0.0 && Raw(s, t, pv) < MIN_V ==>
      Step(s, t, pv).output == MIN_V && Inner(s, t, pv, Step(s, t, pv).iError) == MIN_V
  {
  }

  /** The arithmetic of a call of `update` that has a previous sample, over
      the persistent state `s` and the two errors already computed: time step,
      trapezoidal integral, derivative, blended output, and the clamp with
      back-calculation. The result is `Step`'s later path. */
  method LaterCall(s: PidState, t: real, pv: real, error: real, laterError: real)
    returns (dt: real, der: real, iError: real, output: real)
    requires s.prevTime != 0.0 && t != s.prevTime
    requires error == s.setPoint - pv && laterError == s.laterSp - pv
    ensures dt == t - s.prevTime && der == Derivative(s, t, pv)
    ensures Step(s, t, pv)
      == s.(output := output, iError := iError, pvError := error, prevTime := t)
  {
    var weight := WEIGHT;
    dt := t - s.prevTime;
    iError := s.iError + s.ki * (s.pvError + error) / 2.0 * dt;
    ghost var summed := iError;
    der := (error - s.pvError) / dt;
    output := (1.0 - weight) * (s.kc * error + iError + s.kd * der) + weight * s.kc * laterError;
    ghost var raw := output;
    if output < MIN_V {
      output := MIN_V;
      iError := MIN_V - s.kc * error - s.kd * der;
    } else if output > MAX_V {
      output := MAX_V;
      iError := MAX_V - s.kc * error - s.kd * der;
    }
    assert Error(s, pv) == error && LaterError(s, pv) == laterError;
    assert Integrated(s, t, pv) == summed;
    assert der == Derivative(s, t, pv);
    assert Raw(s, t, pv) == raw;
    StepLaterPath(s, t, pv, output, iError);
  }

  /** A sample handed to `update`: the clock reading and the measured temperature. */
  datatype Reading = Reading(t: real, pv: real)

  /** Every call in the sequence, made in order from `s`, is defined. */
  predicate Admissible(s: PidState, rs: seq<Reading>)
    decreases |rs|
  {
    rs == [] || (Defined(s, rs[0].t) && Admissible(Step(s, rs[0].t, rs[0].pv), rs[1..]))
  }

  /** The commands returned by successive calls of `update`. */
  function Outputs(s: PidState, rs: seq<Reading>): (out: seq<real>)
    requires Admissible(s, rs)
    ensures |out| == |rs|
    ensures forall k :: 0 <= k < |out| ==> MIN_V <= out[k] <= MAX_V
    decreases |rs|
  {
    if rs == [] then []
    else
      var s' := Step(s, rs[0].t, rs[0].pv);
      [s'.output] + Outputs(s', rs[1..])
  }

  /** The state after successive calls of `update`. */
  function After(s: PidState, rs: seq<Reading>): (r: PidState)
    requires Admissible(s, rs)
    ensures r.kc == s.kc && r.ki == s.ki && r.kd == s.kd
    ensures r.setPoint == s.setPoint && r.laterSp == s.laterSp
    ensures rs != [] ==> r.prevTime == rs[|rs| - 1].t
    decreases |rs|
  {
    if rs == [] then s else After(Step(s, rs[0].t, rs[0].pv), rs[1..])
  }

  /** A fresh controller has no previous sample, so its first update is the
      blended proportional response and leaves the integral at zero. */
  lemma FreshFirstCall(kc: real, ki: real, kd: real, sp: real, later: real, t: real, pv: real)
    ensures Defined(Fresh(kc, ki, kd).(setPoint := sp, laterSp := later), t)
    ensures var r := Step(Fresh(kc, ki, kd).(setPoint := sp, laterSp := later), t, pv);
      r.iError == 0.0 &&
      r.output == Clamp(kc * ((1.0 - WEIGHT) * (sp - pv) + WEIGHT * (later - pv)))
  {
    var s := Fresh(kc, ki, kd).(setPoint := sp, laterSp := later);
    assert s.kc == kc && Error(s, pv) == sp - pv && LaterError(s, pv) == later - pv;
    assert Proportional(s, pv) == kc * ((1.0 - WEIGHT) * (sp - pv) + WEIGHT * (later - pv));
    StepFirstPath(s, t, pv);
  }

  /** The "no previous sample" test is `prevTime == 0`: a first call made at
      time 0 records time 0, so the following call is again a first call and
      the integral and derivative terms stay out of it. */
  lemma FirstCallAtTimeZeroRepeats(s: PidState, pv: real, t: real, pv2: real)
    requires s.prevTime == 0.0
    ensures var s1 := Step(s, 0.0, pv);
      s1.prevTime == 0.0 && Defined(s1, t) &&
      Step(s1, t, pv2).iError == s.iError &&
      Step(s1, t, pv2).output == Clamp(Proportional(s1, pv2))
  {
  }

  /** One call with the temperature at the setpoint and the lookahead
      setpoint, and no accumulated error: the command is 0 V and nothing
      accumulates. */
  lemma StepAtRest(s: PidState, t: real, pv: real)
    requires s.setPoint == s.laterSp == pv
    requires s.iError == 0.0 && (s.prevTime == 0.0 || s.pvError == 0.0)
    requires Defined(s, t)
    ensures Step(s, t, pv).output == 0.0 && Step(s, t, pv).iError == 0.0
    ensures Step(s, t, pv).pvError == 0.0
  {
    assert Error(s, pv) == 0.0 && LaterError(s, pv) == 0.0;
    if s.prevTime != 0.0 {
      assert Integrated(s, t, pv) == 0.0;
      assert Derivative(s, t, pv) == 0.0;
      assert Raw(s, t, pv) == 0.0;
      StepLaterPath(s, t, pv, 0.0, 0.0);
    } else {
      assert Proportional(s, pv) == 0.0;
      StepFirstPath(s, t, pv);
    }
  }

  /** With the temperature held at the setpoint, which equals the lookahead
      setpoint, a controller with no accumulated error keeps commanding 0 V
      and its integral stays at zero. */
  lemma {:induction false} SteadyStateCommandsZero(s: PidState, rs: seq<Reading>)
    requires s.setPoint == s.laterSp
    requires s.iError == 0.0 && (s.prevTime == 0.0 || s.pvError == 0.0)
    requires forall k :: 0 <= k < |rs| ==> rs[k].pv == s.setPoint
    requires Admissible(s, rs)
    ensures After(s, rs).iError == 0.0
    ensures forall k :: 0 <= k < |rs| ==> Outputs(s, rs)[k] == 0.0
    decreases |rs|
  {
    if rs != [] {
      var s' := Step(s, rs[0].t, rs[0].pv);
      StepAtRest(s, rs[0].t, rs[0].pv);
      assert forall k :: 0 <= k < |rs[1..]| ==> rs[1..][k].pv == rs[k + 1].pv;
      SteadyStateCommandsZero(s', rs[1..]);
    }
  }

  /** At high saturation the back-calculation leaves out the lookahead term:
      recomputing the blended output with the corrected integral gives MAX_V
      only when the lookahead's own proportional response is MAX_V too. */
  lemma BackCalculationOmitsLookahead(s: PidState, t: real, pv: real)
    requires s.prevTime != 0.0 && t != s.prevTime
    requires Raw(s, t, pv) > MAX_V
    ensures var r := Step(s, t, pv);
      (1.0 - WEIGHT) * Inner(s, t, pv, r.iError) + WEIGHT * s.kc * LaterError(s, pv)
        == MAX_V + WEIGHT * (s.kc * LaterError(s, pv) - MAX_V)
  {
  }

  /** Worked example: gains (2, 0, 0), setpoint and lookahead 50. A first call
      at time 0 reading 40 commands 20 V; because it was made at time 0, the
      call at time 1 reading 45 is again a first call and commands 10 V. */
  lemma FirstTwoCallsExample()
    ensures var s0 := Fresh(2.0, 0.0, 0.0).(setPoint := 50.0, laterSp := 50.0);
      var s1 := Step(s0, 0.0, 40.0);
      s1.output == 20.0 && s1.prevTime == 0.0 &&
      Step(s1, 1.0, 45.0).output == 10.0 && Step(s1, 1.0, 45.0).iError == 0.0
  {
    var s0 := Fresh(2.0, 0.0, 0.0).(setPoint := 50.0, laterSp := 50.0);
    assert Proportional(s0, 40.0) == 20.0;
    var s1 := Step(s0, 0.0, 40.0);
    assert Proportional(s1, 45.0) == 10.0;
  }

  /** Worked example: with gains (100, 0, 0), no accumulated integral and an
      error of 10 on a later call, the raw output is 1000; the command is
      clamped to 24 V and the integral is back-calculated to 24 - 100 * 10. */
  lemma SaturationExample(s: PidState, t: real, pv: real)
    requires s.kc == 100.0 && s.ki == 0.0 && s.kd == 0.0 && s.iError == 0.0
    requires s.setPoint == s.laterSp == pv + 10.0
    requires s.prevTime != 0.0 && t != s.prevTime
    ensures Raw(s, t, pv) == 1000.0
    ensures Step(s, t, pv).output == MAX_V && Step(s, t, pv).iError == -976.0
  {
    assert Integrated(s, t, pv) == 0.0;
    assert Inner(s, t, pv, 0.0) == 1000.0;
    var r := Step(s, t, pv);
    assert Inner(s, t, pv, r.iError) == 1000.0 + r.iError;
  }

  /** The controller object. Fields follow the Python attributes; `error`,
      `laterError`, `dt` and `der` are the scratch attributes that `update`
      also stores on the object. */
  class PID {
    var kc: real
    var ki: real
    var kd: real
    var setPoint: real
    var laterSp: real
    var currTime: Option<real>
    var prevTime: real
    var iError: real
    var pvError: real
    var output: real
    var error: real
    var laterError: real
    var dt: real
    var der: real

    /** The last command always lies in the actuator's range. */
    ghost predicate Valid()
      reads this
    {
      MIN_V <= output <= MAX_V
    }

    /** The persistent state as a value. */
    function State(): PidState
      reads this
    {
      PidState(kc, ki, kd, setPoint, laterSp, prevTime, iError, pvError, output)
    }

    constructor (kc: real, ki: real, kd: real)
      ensures Valid()
      ensures State() == Fresh(kc, ki, kd)
      ensures currTime == None
    {
      this.kc, this.ki, this.kd := kc, ki, kd;
      setPoint, laterSp := 0.0, 0.0;
      currTime := None;
      prevTime := 0.0;
      iError, pvError, output := 0.0, 0.0, 0.0;
      error, laterError, dt, der := 0.0, 0.0, 0.0, 0.0;
    }

    /** One controller evaluation at time `t` for the measured temperature `pv`. */
    method Update(t: real, pv: real) returns (out: real)
      requires Valid()
      requires prevTime != 0.0 ==> t != prevTime
      modifies this
      ensures Valid()
      ensures State() == Step(old(State()), t, pv)
      ensures out == output
      ensures currTime == Some(t)
      ensures error == old(setPoint) - pv && laterError == old(laterSp) - pv
      ensures old(prevTime) == 0.0 ==> dt == old(dt) && der == old(der)
      ensures old(prevTime) != 0.0 ==>
        dt == t - old(prevTime) && der == Derivative(old(State()), t, pv)
    {
      ghost var s := State();
      var e := setPoint - pv;
      var le := laterSp - pv;
      var weight := WEIGHT;
      if prevTime == 0.0 {
        out := kc * ((1.0 - weight) * e + weight * le);
        assert out == Proportional(s, pv);
        if out < MIN_V || out > MAX_V {
          out := Max(MIN_V, Min(MAX_V, out));
        }
        StepFirstPath(s, t, pv);
      } else {
        dt, der, iError, out := LaterCall(State(), t, pv, e, le);
      }
      currTime, error, laterError := Some(t), e, le;
      output, pvError, prevTime := out, e, t;
    }

    /** Retuning replaces the three gains and nothing else (bumpless). */
    method SetTuning(kc: real, ki: real, kd: real)
      requires Valid()
      modifies this
      ensures Valid()
      ensures State() == old(State()).(kc := kc, ki := ki, kd := kd)
      ensures unchanged(this`currTime, this`error, this`laterError, this`dt, this`der)
    {
      this.kc := kc;
      this.ki := ki;
      this.kd := kd;
    }

    method SetP(p: real)
      requires Valid()
      modifies this
      ensures Valid()
      ensures State() == old(State()).(kc := p)
      ensures unchanged(this`currTime, this`error, this`laterError, this`dt, this`der)
    {
      kc := p;
    }

    method SetSetpoint(sp: real)
      requires Valid()
      modifies this
      ensures Valid()
      ensures State() == old(State()).(setPoint := sp)
      ensures unchanged(this`currTime, this`error, this`laterError, this`dt, this`der)
    {
      setPoint := sp;
    }

    method SetLaterSp(sp: real)
      requires Valid()
      modifies this
      ensures Valid()
      ensures State() == old(State()).(laterSp := sp)
      ensures unchanged(this`currTime, this`error, this`laterError, this`dt, this`der)
    {
      laterSp := sp;
    }

    /** The setpoint last stored by `SetSetpoint`, 0 on a fresh controller. */
    function GetSetpoint(): (sp: real)
      reads this
      ensures sp == State().setPoint
    {
      setPoint
    }

    /** The last command, always inside the actuator's range. */
    function GetOutput(): (v: real)
      reads this
      requires Valid()
      ensures MIN_V <= v <= MAX_V
      ensures v == State().output
    {
      output
    }
  }
}

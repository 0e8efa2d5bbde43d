/** The control loop driver: one object per control run, holding the
    setpoint, ramp rate, gains, voltage-mode target, the ramp's restart
    point, and the PID controller it feeds. `Tick` is one iteration of the
    worker's polling loop; the handlers are the buttons that start, pause,
    stop and retune a run.

    The thermometer and the power supply are not modelled: each tick
    receives the loop's temperature reading and the ramp-restart reading
    (each possibly failed), the clock reading, the selected mode and the
    supply's read-back voltage as a `Sample`, and returns what it commands. */
module Runner {
  import opened Wrappers
  import opened Pid
  import Ramp
  import Reals

  /** The shared run status: 0 = running, 1 = paused, 2 = stopped. */
  datatype Status = Running | Paused | Stopped

  /** The selected tab: 0 = PID control, 1 = direct voltage control. */
  datatype Mode = PidMode | VoltageMode

  /** The thermometer reading at the top of the loop. The read runs an
      external command and parses its output: a non-zero exit is caught by
      the loop, output that does not parse as a number is not. */
  datatype Reading =
    | Temp(value: real)   // the temperature read
    | ReadFailed          // the command exited with an error
    | Unparsable          // the command's output is not a number

  /** What one tick observes of the outside world. */
  datatype Sample = Sample(
    temp: Reading,             // thermometer reading at the top of the loop
    restartTemp: Option<real>, // the second reading taken when the PID ramp restarts; None when
                               // it fails in either way (neither is caught there)
    now: real,                 // clock reading
    mode: Mode,                // selected tab
    readback: real)            // the power supply's present output voltage

  /** What one tick does to the power supply. */
  datatype TickResult =
    | Sent(volts: real)   // commands `volts` and goes on polling
    | Shutdown            // sets the status to stopped, commands 0 V, leaves the loop
    | Fault               // the worker raises before commanding anything: the loop's
                          // reading did not parse, the pause branch had no setpoint
                          // to freeze, or the restart read failed; the status is not
                          // changed and the supply keeps its last command

  /** Whether a PID-mode tick restarts the setpoint ramp, and so reads the
      thermometer a second time: on the first PID tick, and on the first
      running tick after a pause. */
  predicate Restarts(prevMode: Option<Mode>, status: Status, prevStatus: Option<Status>)
  {
    prevMode == None || (prevMode == Some(PidMode) && status == Running && prevStatus == Some(Paused))
  }

  class JobRunner {
    var status: Status
    var sp: real            // target temperature
    var rampRate: real      // degrees per minute
    var p: real
    var i: real
    var d: real
    var pid: PID
    var v: real             // voltage-mode target
    var vRampTime: real     // voltage ramp duration in seconds, 0 when none
    var rampSelected: bool  // the voltage-mode selector shows "Ramp voltage"
    var t0: Option<real>    // start of the current ramp
    var initialSp: Option<real>
    var currentSp: Option<real>
    var temp: Option<real>  // last temperature read
    // locals of the polling loop, kept across ticks
    var prevMode: Option<Mode>
    var prevStatus: Option<Status>
    var rampI: real         // voltage ramp start, -1 when no ramp is in flight

    ghost predicate Valid()
      reads this, pid
    {
      pid.Valid() &&
      (prevMode == Some(PidMode) ==> initialSp.Some? && t0.Some?) &&
      (rampI != -1.0 ==> t0.Some?) &&
      (prevMode.Some? ==> temp.Some?)
    }

    /** A runner built when a run starts from the stopped state. The voltage
        target and ramp length are read only when the voltage tab is selected. */
    constructor (sp: real, rampRate: real, p: real, i: real, d: real,
                 tab: Mode, v: real, rampMinutes: real, rampSelected: bool)
      ensures Valid() && fresh(pid)
      ensures status == Stopped
      ensures this.sp == sp && this.rampRate == rampRate
      ensures this.p == p && this.i == i && this.d == d
      ensures pid.State() == Fresh(p, i, d)
      ensures tab == VoltageMode ==> this.v == v && vRampTime == rampMinutes * 60.0
      ensures tab == PidMode ==> this.v == 0.0 && vRampTime == 0.0
      ensures this.rampSelected == rampSelected
      ensures t0 == None && initialSp == None && currentSp == None && temp == None
      ensures prevMode == None && prevStatus == None && rampI == -1.0
    {
      status := Stopped;
      this.sp, this.rampRate := sp, rampRate;
      this.p, this.i, this.d := p, i, d;
      pid := new PID(p, i, d);
      if tab == VoltageMode {
        this.v, vRampTime := v, rampMinutes * 60.0;
      } else {
        this.v, vRampTime := 0.0, 0.0;
      }
      this.rampSelected := rampSelected;
      t0, initialSp, currentSp, temp := None, None, None, None;
      prevMode, prevStatus, rampI := None, None, -1.0;
    }

    /** Starting a new run, and resuming a paused one: the status becomes
        running. */
    method Start()
      modifies this`status
      ensures status == Running
    {
      status := Running;
    }

    /** The pause button. While running in the PID tab it first shows the
        current setpoint, which fails (leaving the status alone) when no
        setpoint has been computed yet. */
    method Pause(tab: Mode) returns (ok: bool)
      modifies this`status
      ensures ok == !(old(status) == Running && tab == PidMode && currentSp.None?)
      ensures status == if ok then Paused else old(status)
    {
      if status == Running && tab == PidMode && currentSp.None? {
        return false;
      }
      status := Paused;
      ok := true;
    }

    /** The stop button, also used when the loop aborts: the status becomes
        stopped and the power supply is commanded to 0 V. */
    method Stop() returns (volts: real)
      modifies this`status
      ensures status == Stopped && volts == 0.0
    {
      status := Stopped;
      volts := 0.0;
    }

    /** The "set" button: while a run is active, a new target and rate restart
        the setpoint ramp from the last temperature read, at time `now`. */
    method Retune(newSp: real, newRate: real, now: real)
      requires Valid()
      modifies this`sp, this`rampRate, this`initialSp, this`t0
      ensures Valid()
      ensures old(status) == Stopped ==>
        unchanged(this`sp, this`rampRate, this`initialSp, this`t0)
      ensures old(status) != Stopped ==>
        sp == newSp && rampRate == newRate && initialSp == temp && t0 == Some(now)
    {
      if status != Stopped {
        sp := newSp;
        rampRate := newRate;
        initialSp := temp;
        t0 := Some(now);
      }
    }

    /** The "+" button: the shown target goes up by one degree; while a run
        is active the ramp restarts from the last temperature read toward it. */
    method PlusSp(shown: real, now: real) returns (newShown: real)
      requires Valid()
      modifies this`sp, this`initialSp, this`t0
      ensures Valid()
      ensures newShown == shown + 1.0
      ensures old(status) == Stopped ==>
        unchanged(this`sp, this`initialSp, this`t0)
      ensures old(status) != Stopped ==>
        sp == newShown && initialSp == temp && t0 == Some(now)
    {
      newShown := shown + 1.0;
      if status != Stopped {
        initialSp := temp;
        t0 := Some(now);
        sp := newShown;
      }
    }

    /** The "-" button, symmetric to `PlusSp`. */
    method MinusSp(shown: real, now: real) returns (newShown: real)
      requires Valid()
      modifies this`sp, this`initialSp, this`t0
      ensures Valid()
      ensures newShown == shown - 1.0
      ensures old(status) == Stopped ==>
        unchanged(this`sp, this`initialSp, this`t0)
      ensures old(status) != Stopped ==>
        sp == newShown && initialSp == temp && t0 == Some(now)
    {
      newShown := shown - 1.0;
      if status != Stopped {
        initialSp := temp;
        t0 := Some(now);
        sp := newShown;
      }
    }

    /** One iteration of the polling loop, entered while the status is not
        stopped: read the temperature, then act by the selected mode. */
    method Tick(s: Sample) returns (r: TickResult)
      requires Valid() && status != Stopped
      // the controller divides by the time step (a zero step raises)
      requires (s.mode == PidMode && pid.prevTime != 0.0) ==> s.now != pid.prevTime
      modifies this, pid
      ensures Valid() && pid == old(pid)
      ensures r.Shutdown? <==> status == Stopped
      // only a stop changes the status
      ensures !r.Shutdown? ==> status == old(status)
      ensures pid.prevTime == old(pid.prevTime) || pid.prevTime == s.now
      ensures unchanged(this`sp, this`rampRate, this`p, this`i, this`d)
      // a failed temperature read stops the run with 0 V and changes nothing else
      ensures s.temp.ReadFailed? ==>
        (r == Shutdown && pid.State() == old(pid.State()) &&
         unchanged(this`temp, this`prevMode, this`t0))
      // a reading that does not parse ends the worker: no stop, no command
      ensures s.temp.Unparsable? ==>
        (r == Fault && pid.State() == old(pid.State()) && unchanged(this))
      ensures s.temp.Temp? ==> temp == Some(s.temp.value)
      // otherwise the selected mode's branch runs
      ensures (s.temp.Temp? && s.mode == VoltageMode) ==>
        (VoltageTicked(s, r) && pid.State() == old(pid.State()))
      ensures (s.temp.Temp? && s.mode == PidMode) ==> PidTicked(s, r)
      // each mode leaves the other mode's state alone
      ensures (!s.temp.Temp? || s.mode == PidMode) ==>
        unchanged(this`v, this`vRampTime, this`rampSelected, this`rampI)
      ensures (!s.temp.Temp? || s.mode == VoltageMode) ==>
        unchanged(this`initialSp, this`currentSp, this`prevStatus)
      // every command of the controller lies in the actuator's range
      ensures (s.mode == PidMode && r.Sent?) ==> MIN_V <= r.volts <= MAX_V
    {
      if s.temp.ReadFailed? {
        // the thermometer command failed: stop the run
        var _ := Stop();
        return Shutdown;
      } else if s.temp.Unparsable? {
        return Fault;
      }
      if s.mode == VoltageMode {
        r := VoltageTick(s);
      } else {
        r := PidTick(s);
      }
    }

    /** A running PID-mode tick with no restart pending continues the ramp
        that is in place: it commands a value in range, and the setpoint is
        the ramp's value at the tick's time. */
    method SteadyTick(s: Sample) returns (r: TickResult)
      requires Valid() && status == Running
      requires prevMode == Some(PidMode) && prevStatus == Some(Running)
      requires s.temp.Temp? && s.mode == PidMode
      requires pid.prevTime != 0.0 ==> s.now != pid.prevTime
      modifies this, pid
      ensures Valid() && pid == old(pid) && status == Running
      ensures r.Sent? && MIN_V <= r.volts <= MAX_V
      ensures unchanged(this`sp, this`rampRate, this`initialSp, this`t0)
      ensures currentSp == Some(Ramp.Setpoint(initialSp.value, sp, rampRate, t0.value, s.now))
    {
      r := Tick(s);
    }

    /** What a voltage-mode tick does: the controller is bypassed and the
        supply is driven to the readback, a fixed target or a linear ramp. */
    twostate predicate VoltageTicked(s: Sample, r: TickResult)
      requires old(rampI) != -1.0 ==> old(t0).Some?
      reads this
    {
      r.Sent? && prevMode == Some(VoltageMode) &&
      // paused: hold the supply's present voltage and forget the ramp
      (old(status) == Paused ==>
        (r == Sent(s.readback) && rampI == -1.0 &&
         unchanged(this`v, this`vRampTime, this`rampSelected, this`t0))) &&
      // coming from PID mode: keep the supply's present voltage as the fixed target
      ((old(status) == Running && old(prevMode) == Some(PidMode)) ==>
        (r == Sent(s.readback) && v == s.readback && !rampSelected &&
         unchanged(this`rampI, this`t0, this`vRampTime))) &&
      // running a voltage ramp: the command follows the linear ramp; once its
      // time is over the target is held and the ramp is marked finished
      ((old(status) == Running && old(prevMode) != Some(PidMode) &&
        old(rampSelected) && old(vRampTime) != 0.0) ==>
        var start := if old(rampI) == -1.0 then s.readback else old(rampI);
        var since := if old(rampI) == -1.0 then s.now else old(t0).value;
        var elapsed := s.now - since;
        r == Sent(Ramp.Voltage(start, old(v), old(vRampTime), elapsed)) && v == old(v) &&
        (elapsed <= old(vRampTime) ==>
          rampI == start && t0 == Some(since) && vRampTime == old(vRampTime) && rampSelected) &&
        (elapsed > old(vRampTime) ==>
          rampI == -1.0 && t0 == None && vRampTime == 0.0 && !rampSelected)) &&
      // fixed voltage: command the target as it is
      ((old(status) == Running && old(prevMode) != Some(PidMode) &&
        !(old(rampSelected) && old(vRampTime) != 0.0)) ==>
        (r == Sent(old(v)) &&
         unchanged(this`v, this`vRampTime, this`rampSelected, this`rampI, this`t0)))
    }

    /** The voltage-mode branch of a tick: the controller is bypassed and the
        supply is driven to a fixed or linearly ramped voltage. */
    method VoltageTick(s: Sample) returns (r: TickResult)
      requires Valid() && status != Stopped && s.temp.Temp?
      modifies this`temp, this`v, this`vRampTime, this`rampSelected, this`t0, this`rampI,
               this`prevMode
      ensures Valid() && temp == Some(s.temp.value)
      ensures VoltageTicked(s, r)
    {
      temp := Some(s.temp.value);
      var volts: real;
      if status == Running {
        if prevMode == Some(PidMode) {
          rampSelected := false;
          v := s.readback;
        }
        if rampSelected && vRampTime != 0.0 {
          if rampI == -1.0 {
            rampI := s.readback;
            t0 := Some(s.now);
          }
          var elapsed := s.now - t0.value;
          if elapsed <= vRampTime {
            volts := rampI + (v - rampI) / vRampTime * elapsed;
          } else {
            volts := v;
            vRampTime := 0.0;
            rampSelected := false;
            t0 := None;
            rampI := -1.0;
          }
        } else {
          volts := v;
        }
      } else {
        volts := s.readback;
        rampI := -1.0;
      }
      prevMode := Some(VoltageMode);
      r := Sent(volts);
    }

    /** What a PID-mode tick does, once the temperature is read. */
    twostate predicate PidTicked(s: Sample, r: TickResult)
      requires s.temp.Temp? && old(pid.Valid())
      requires old(pid.prevTime) != 0.0 ==> s.now != old(pid.prevTime)
      reads this, pid
    {
      // switching from voltage mode to PID mode stops the run with 0 V
      (old(prevMode) == Some(VoltageMode) ==>
        (r == Shutdown && pid.State() == old(pid.State()) && prevMode == old(prevMode))) &&
      (old(prevMode) != Some(VoltageMode) ==>
        (status == old(status) && (r.Sent? || r.Fault?) &&
         (r.Sent? ==> prevMode == Some(PidMode) && r.volts == pid.output &&
                      MIN_V <= r.volts <= MAX_V))) &&
      // the first PID tick, and a running tick after a pause, restart the
      // ramp at the current time from a second thermometer reading; when that
      // read fails the worker raises without stopping the run or zeroing the supply
      (Restarts(old(prevMode), old(status), old(prevStatus)) ==>
        (t0 == Some(s.now) &&
         (s.restartTemp.Some? ==> initialSp == s.restartTemp) &&
         (s.restartTemp.None? ==>
           r == Fault && pid.State() == old(pid.State()) && currentSp == old(currentSp)))) &&
      ((old(prevMode) == Some(PidMode) &&
        !Restarts(old(prevMode), old(status), old(prevStatus))) ==>
        (initialSp == old(initialSp) && t0 == old(t0))) &&
      // running: setpoint and lookahead follow the ramp, then the controller runs
      ((old(prevMode) != Some(VoltageMode) && old(status) == Running &&
        !(Restarts(old(prevMode), old(status), old(prevStatus)) && s.restartTemp.None?)) ==>
        initialSp.Some? && t0.Some? &&
        var cur := Ramp.Setpoint(initialSp.value, sp, rampRate, t0.value, s.now);
        var later := Ramp.Lookahead(initialSp.value, sp, rampRate, t0.value, s.now);
        currentSp == Some(cur) && prevStatus == Some(Running) &&
        pid.State() == Step(old(pid.State()).(kc := p, ki := i, kd := d,
                                               setPoint := cur, laterSp := later),
                            s.now, s.temp.value) &&
        r == Sent(pid.output)) &&
      // so a restart puts the setpoint at the temperature just read: no jump
      ((old(prevMode) != Some(VoltageMode) && old(status) == Running && r.Sent? &&
        initialSp == s.restartTemp && t0 == Some(s.now)) ==>
        currentSp == s.restartTemp) &&
      // paused: the setpoint and lookahead are frozen at the last setpoint
      ((old(prevMode) != Some(VoltageMode) && old(status) == Paused &&
        !(old(prevMode) == None && s.restartTemp.None?)) ==>
        (currentSp == old(currentSp) &&
         (old(currentSp).None? ==> r == Fault) &&
         (old(currentSp).Some? ==>
           prevStatus == Some(Paused) &&
           pid.State() == Step(old(pid.State()).(kc := p, ki := i, kd := d,
                                                  setPoint := old(currentSp).value,
                                                  laterSp := old(currentSp).value),
                               s.now, s.temp.value) &&
           r == Sent(pid.output))))
    }

    /** The PID-mode branch of a tick: advance or freeze the setpoint ramp,
        retune the controller with the current gains and command its output. */
    method PidTick(s: Sample) returns (r: TickResult)
      requires Valid() && status != Stopped && s.temp.Temp?
      requires pid.prevTime != 0.0 ==> s.now != pid.prevTime
      modifies this`temp, this`status, this`t0, this`initialSp, this`currentSp, this`prevStatus,
               this`prevMode, pid
      ensures Valid() && temp == Some(s.temp.value)
      ensures r.Shutdown? <==> status == Stopped
      ensures pid.prevTime == old(pid.prevTime) || pid.prevTime == s.now
      ensures PidTicked(s, r)
    {
      temp := Some(s.temp.value);
      var reading := s.temp.value;
      if prevMode == None {
        t0 := Some(s.now);
        if s.restartTemp.None? {
          return Fault;
        }
        initialSp := s.restartTemp;
      } else if prevMode == Some(VoltageMode) {
        var _ := Stop();
        return Shutdown;
      } else {
        assert prevMode.value == PidMode;
      }
      var ok := SetpointTick(s);
      if !ok {
        return Fault;
      }
      r := Control(s.now, reading);
    }

    /** The controller part of a PID-mode tick: retune with the current gains,
        take one step and command its output. */
    method Control(now: real, reading: real) returns (r: TickResult)
      requires Valid() && initialSp.Some? && t0.Some? && temp.Some?
      requires pid.prevTime != 0.0 ==> now != pid.prevTime
      modifies this`prevMode, pid
      ensures Valid() && prevMode == Some(PidMode)
      ensures pid.State() == Step(old(pid.State()).(kc := p, ki := i, kd := d), now, reading)
      ensures r == Sent(pid.output) && MIN_V <= r.volts <= MAX_V
    {
      pid.SetTuning(p, i, d);
      var volts := pid.Update(now, reading);
      prevMode := Some(PidMode);
      r := Sent(volts);
    }

    /** The setpoint part of a PID-mode tick: while running, restart the ramp
        after a pause and hand the ramp's setpoint and lookahead to the
        controller; while paused, hand it the frozen setpoint for both. It
        fails when paused before any setpoint was computed. */
    method SetpointTick(s: Sample) returns (ok: bool)
      requires Valid() && status != Stopped && s.temp.Temp?
      requires initialSp.Some? && t0.Some?
      modifies this`t0, this`initialSp, this`currentSp, this`prevStatus, pid
      ensures Valid() && initialSp.Some? && t0.Some?
      ensures ok == if status == Running then !(old(prevStatus) == Some(Paused) && s.restartTemp.None?)
                    else old(currentSp).Some?
      // a running tick after a pause restarts the ramp from a second reading
      ensures (status == Running && old(prevStatus) == Some(Paused)) ==>
        (t0 == Some(s.now) && (ok ==> initialSp == s.restartTemp))
      ensures !(status == Running && old(prevStatus) == Some(Paused) && ok) ==>
        initialSp == old(initialSp)
      ensures !(status == Running && old(prevStatus) == Some(Paused)) ==> t0 == old(t0)
      ensures !ok ==> (pid.State() == old(pid.State()) && currentSp == old(currentSp))
      ensures status == Running && ok ==>
        var cur := Ramp.Setpoint(initialSp.value, sp, rampRate, t0.value, s.now);
        currentSp == Some(cur) && prevStatus == Some(Running) &&
        pid.State() == old(pid.State()).(setPoint := cur,
          laterSp := Ramp.Lookahead(initialSp.value, sp, rampRate, t0.value, s.now))
      ensures status == Paused ==>
        (currentSp == old(currentSp) &&
         (ok ==> prevStatus == Some(Paused) &&
                 pid.State() == old(pid.State()).(setPoint := currentSp.value,
                                                  laterSp := currentSp.value)))
    {
      if status == Running {
        if prevStatus == Some(Paused) {
          t0 := Some(s.now);
          if s.restartTemp.None? {
            return false;
          }
          initialSp := s.restartTemp;
        }
        var cur := Ramp.Setpoint(initialSp.value, sp, rampRate, t0.value, s.now);
        currentSp := Some(cur);
        pid.SetSetpoint(cur);
        pid.SetLaterSp(Ramp.Lookahead(initialSp.value, sp, rampRate, t0.value, s.now));
        prevStatus := Some(Running);
        ok := true;
      } else {
        if currentSp.None? {
          return false;
        }
        pid.SetSetpoint(currentSp.value);
        pid.SetLaterSp(currentSp.value);
        prevStatus := Some(Paused);
        ok := true;
      }
    }

    /** The polling loop over a finite run of samples: it ticks until the
        samples are exhausted, the run is stopped or the controller faults.
        Only the last tick may end the run, and in PID mode every command
        lies in the actuator's range. */
    method Run(samples: seq<Sample>) returns (results: seq<TickResult>)
      requires Valid() && status != Stopped
      requires forall k :: 0 <= k < |samples| ==> samples[k].now > pid.prevTime
      requires forall j, k :: 0 <= j < k < |samples| ==> samples[j].now < samples[k].now
      modifies this, pid
      ensures Valid() && pid == old(pid)
      ensures |results| <= |samples|
      ensures forall k :: 0 <= k < |results| - 1 ==> results[k].Sent?
      ensures |results| < |samples| ==> |results| > 0 && !results[|results| - 1].Sent?
      ensures results != [] && results[|results| - 1] == Shutdown ==> status == Stopped
      // only a stop changes the status, and only the last tick can stop
      ensures (results == [] || results[|results| - 1] != Shutdown) ==> status == old(status)
      ensures forall k :: 0 <= k < |results| && samples[k].mode == PidMode && results[k].Sent? ==>
        MIN_V <= results[k].volts <= MAX_V
    {
      results := [];
      var n := 0;
      while n < |samples|
        invariant Valid() && pid == old(pid)
        invariant n == |results| <= |samples|
        invariant forall k :: 0 <= k < n ==> results[k].Sent?
        invariant status == old(status)
        invariant forall k :: n <= k < |samples| ==> samples[k].now > pid.prevTime
        invariant forall k :: 0 <= k < n && samples[k].mode == PidMode ==>
          MIN_V <= results[k].volts <= MAX_V
      {
        var r := Tick(samples[n]);
        results := results + [r];
        n := n + 1;
        if !r.Sent? {
          return;
        }
      }
    }
  }

  /** Retuning a running PID-mode run and then ticking: the new ramp starts at
      the temperature read before the retune, so the setpoint moves by at most
      what the ramp rate allows in the time between the two. */
  method RetuneThenTick(runner: JobRunner, newSp: real, newRate: real, now: real, s: Sample)
    returns (r: TickResult)
    requires runner.Valid() && runner.status == Running
    requires runner.prevMode == Some(PidMode) && runner.prevStatus == Some(Running)
    requires newRate >= 0.0 && s.now >= now && s.temp.Temp? && s.mode == PidMode
    requires runner.pid.prevTime != 0.0 ==> s.now != runner.pid.prevTime
    modifies runner, runner.pid
    ensures r.Sent? && MIN_V <= r.volts <= MAX_V
    ensures runner.currentSp.Some?
    ensures Reals.Abs(runner.currentSp.value - old(runner.temp).value) <= newRate / 60.0 * (s.now - now)
  {
    runner.Retune(newSp, newRate, now);
    ghost var start := runner.temp.value;
    assert runner.initialSp == Some(start) && runner.t0 == Some(now);
    r := runner.SteadyTick(s);
    Ramp.RestartWithoutJump(start, newSp, newRate, now, s.now);
  }

  /** The target and rate edits share `t0` with the voltage ramp: a retune in
      voltage mode while a voltage ramp is in flight restarts that ramp's
      clock but keeps its captured start, so the next command is computed from
      the ramp's start again. At the retune instant it is the start itself. */
  method RetuneDuringVoltageRamp(runner: JobRunner, newSp: real, newRate: real, now: real,
                                 s: Sample)
    returns (r: TickResult)
    requires runner.Valid() && runner.status == Running
    requires runner.prevMode == Some(VoltageMode) && runner.rampSelected
    requires runner.vRampTime > 0.0 && runner.rampI != -1.0
    requires s.temp.Temp? && s.mode == VoltageMode && now <= s.now
    modifies runner, runner.pid
    ensures r == Sent(Ramp.Voltage(old(runner.rampI), old(runner.v), old(runner.vRampTime),
                                   s.now - now))
    ensures s.now == now ==> r == Sent(old(runner.rampI))
  {
    runner.Retune(newSp, newRate, now);
    r := runner.Tick(s);
  }
}

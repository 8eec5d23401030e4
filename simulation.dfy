/**
 * The discrete-time loop that couples a vehicle to an optional controller,
 * records the time, velocity and control-input histories, and reports the
 * settling time of the recorded velocity.
 */
module SimulationLoop {
  import opened Basics
  import opened VehicleDynamics
  import opened PidControl
  import opened SettlingTime

  /**
   * Number of samples recorded by `while t <= duration` with `t` running
   * over `0, dt, 2 * dt, ...`: `floor(duration / dt) + 1`, or none for a
   * negative duration.
   */
  function SampleCount(duration: real, dt: real): nat
    requires dt > 0.0
  {
    if duration < 0.0 then 0
    else
      assert duration / dt >= 0.0;
      (duration / dt).Floor + 1
  }

  /** The clock after `k` increments `t += dt` from `t = 0`. */
  function Clock(k: nat, dt: real): real
  {
    if k == 0 then 0.0 else Clock(k - 1, dt) + dt
  }

  /** In exact arithmetic the clock after `k` increments reads `k * dt`. */
  lemma {:induction false} ClockIsProduct(k: nat, dt: real)
    ensures Clock(k, dt) == (k as real) * dt
  {
    if k > 0 {
      ClockIsProduct(k - 1, dt);
      assert ((k - 1) as real) * dt + dt == (k as real) * dt;
    }
  }

  /** The clock after `k` increments passes the loop test exactly for the first `SampleCount` values of `k`. */
  lemma RecordedTimes(duration: real, dt: real, k: nat)
    requires dt > 0.0
    ensures Clock(k, dt) <= duration <==> k < SampleCount(duration, dt)
  {
    ClockIsProduct(k, dt);
    if duration >= 0.0 {
      var q := duration / dt;
      QuotientTimesStep(duration, dt);
      ScaleByPositive(k as real, q, dt);
      FloorBound(q, k);
    } else {
      ScaleByPositive(0.0, k as real, dt);
    }
  }

  /** `(duration / dt) * dt` is `duration` again. */
  lemma QuotientTimesStep(duration: real, dt: real)
    requires dt > 0.0
    ensures (duration / dt) * dt == duration
  {
  }

  /** Multiplying by a positive step preserves the order of two reals. */
  lemma ScaleByPositive(a: real, b: real, dt: real)
    requires dt > 0.0
    ensures a <= b <==> a * dt <= b * dt
  {
  }

  /** An integer is at most a real exactly when it is at most the real's floor. */
  lemma FloorBound(q: real, k: int)
    ensures k as real <= q <==> k <= q.Floor
  {
  }

  /** Sample `i` of `times` is the clock after `i` increments, and no sample is later than `duration`. */
  predicate SampleTimes(times: seq<real>, dt: real, duration: real)
  {
    forall i :: 0 <= i < |times| ==> times[i] == Clock(i, dt) && times[i] <= duration
  }

  /** Recording the clock reading of sample `k` keeps the sample times regular. */
  lemma RecordTime(times: seq<real>, dt: real, duration: real, k: nat, t: real)
    requires SampleTimes(times, dt, duration) && |times| == k
    requires t == Clock(k, dt) && t <= duration
    ensures SampleTimes(times + [t], dt, duration)
  {
  }

  /** Sample `i` of `times` is at `i * dt`, and no sample is later than `duration`. */
  predicate EvenlySpaced(times: seq<real>, dt: real, duration: real)
  {
    forall i :: 0 <= i < |times| ==> times[i] == (i as real) * dt && times[i] <= duration
  }

  /** The clock readings recorded by the loop are the multiples `i * dt`. */
  lemma SampleTimesAreMultiples(times: seq<real>, dt: real, duration: real)
    requires SampleTimes(times, dt, duration)
    ensures EvenlySpaced(times, dt, duration)
  {
    forall i | 0 <= i < |times| ensures times[i] == (i as real) * dt {
      ClockIsProduct(i, dt);
    }
  }

  /** State of the closed loop between two steps: vehicle velocity and, if attached, the controller. */
  datatype Loop = Loop(velocity: real, pid: Option<Pid>)

  /** Control input applied at a step: the controller's output, or 0 without a controller. */
  function ControlInput(w: Loop, dt: real): real
    requires dt != 0.0
  {
    match w.pid
    case None => 0.0
    case Some(c) => Output(c, w.velocity, dt)
  }

  /** One step of the loop: compute the input at the current velocity, then step the vehicle with it. */
  function LoopStep(mass: real, k: real, dt: real, w: Loop): Loop
    requires mass != 0.0 && dt != 0.0
  {
    Loop(EulerStep(mass, k, w.velocity, ControlInput(w, dt), dt),
         match w.pid
         case None => None
         case Some(c) => Some(Advance(c, w.velocity, dt)))
  }

  /** The loop state after `n` steps from `w`. */
  function LoopAfter(mass: real, k: real, dt: real, w: Loop, n: nat): Loop
    requires mass != 0.0 && dt != 0.0
  {
    if n == 0 then w else LoopStep(mass, k, dt, LoopAfter(mass, k, dt, w, n - 1))
  }

  /** Without a controller the loop stays uncontrolled, so every input it applies is 0. */
  lemma {:induction false} UncontrolledInputsAreZero(mass: real, k: real, dt: real, v: real, n: nat)
    requires mass != 0.0 && dt != 0.0
    ensures LoopAfter(mass, k, dt, Loop(v, None), n).pid == None
    ensures ControlInput(LoopAfter(mass, k, dt, Loop(v, None), n), dt) == 0.0
  {
    if n > 0 {
      UncontrolledInputsAreZero(mass, k, dt, v, n - 1);
    }
  }

  /**
   * Sample `i` of the velocity and input histories is read from the loop
   * state after `i` steps from `start`: its velocity, and the input the
   * controller (or its absence) applies in it.
   */
  predicate FollowsLoop(vs: seq<real>, us: seq<real>, mass: real, k: real, dt: real, start: Loop)
    requires mass != 0.0 && dt != 0.0
  {
    && |vs| == |us|
    && forall i :: 0 <= i < |vs| ==>
         vs[i] == LoopAfter(mass, k, dt, start, i).velocity
         && us[i] == ControlInput(LoopAfter(mass, k, dt, start, i), dt)
  }

  /** Recording the loop state after `|vs|` steps extends histories that follow the loop. */
  lemma FollowsLoopExtend(vs: seq<real>, us: seq<real>, mass: real, k: real, dt: real, start: Loop)
    requires mass != 0.0 && dt != 0.0
    requires FollowsLoop(vs, us, mass, k, dt, start)
    ensures var w := LoopAfter(mass, k, dt, start, |vs|);
      FollowsLoop(vs + [w.velocity], us + [ControlInput(w, dt)], mass, k, dt, start)
  {
  }

  /**
   * Histories that follow the loop start at the start velocity, each
   * velocity is one Euler step from the previous one under the recorded
   * input, and without a controller every input is 0.
   */
  lemma {:induction false} FollowsLoopSteps(vs: seq<real>, us: seq<real>, mass: real, k: real, dt: real, start: Loop)
    requires mass != 0.0 && dt != 0.0
    requires FollowsLoop(vs, us, mass, k, dt, start)
    ensures |vs| > 0 ==> vs[0] == start.velocity
    ensures forall i :: 0 <= i < |vs| - 1 ==> vs[i + 1] == EulerStep(mass, k, vs[i], us[i], dt)
    ensures start.pid == None ==> forall i :: 0 <= i < |us| ==> us[i] == 0.0
  {
    forall i | 0 <= i < |vs| - 1 ensures vs[i + 1] == EulerStep(mass, k, vs[i], us[i], dt) {
      assert LoopAfter(mass, k, dt, start, i + 1) == LoopStep(mass, k, dt, LoopAfter(mass, k, dt, start, i));
    }
    if start.pid == None {
      forall i | 0 <= i < |us| ensures us[i] == 0.0 {
        UncontrolledInputsAreZero(mass, k, dt, start.velocity, i);
      }
    }
  }

  /**
   * Controller as the first step sees it: with a new setpoint it is
   * re-targeted and both accumulators are zeroed, otherwise it is as it was.
   */
  function Prepare(c: Pid, setpoint: Option<real>): Pid
  {
    match setpoint
    case None => c
    case Some(s) => Cleared(c.(setpoint := s))
  }

  /** A simulation owning a vehicle, an optional controller, a time step and three histories. */
  class Simulation {
    const vehicle: Vehicle
    const controller: PidController?
    const dt: real
    var timePoints: seq<real>
    var velocityPoints: seq<real>
    var controlInputs: seq<real>

    /** The three histories are index-aligned. */
    predicate Valid()
      reads this
    {
      |timePoints| == |velocityPoints| == |controlInputs|
    }

    /** The current closed-loop state: vehicle velocity and controller, if any. */
    function LoopState(): Loop
      reads this, vehicle, controller
    {
      Loop(vehicle.velocity, if controller == null then None else Some(controller.View()))
    }

    /** The closed-loop state `Run` starts from with the given setpoint override. */
    function Start(setpoint: Option<real>): Loop
      reads this, vehicle, controller
    {
      Loop(vehicle.velocity, if controller == null then None else Some(Prepare(controller.View(), setpoint)))
    }

    /**
     * Keeps the given vehicle (or makes the default one: 1 kg, 10 m/s,
     * 0.05 kg/m), the controller and the time step; all histories are empty.
     */
    constructor (vehicle: Vehicle? := null, controller: PidController? := null, dt: real := 1.0)
      ensures vehicle != null ==> this.vehicle == vehicle
      ensures vehicle == null ==>
        fresh(this.vehicle) && this.vehicle.mass == 1.0
        && this.vehicle.velocity == 10.0 && this.vehicle.dragCoefficient == 0.05
      ensures this.controller == controller && this.dt == dt
      ensures timePoints == [] && velocityPoints == [] && controlInputs == []
      ensures Valid()
    {
      if vehicle != null {
        this.vehicle := vehicle;
      } else {
        this.vehicle := new Vehicle();
      }
      this.controller := controller;
      this.dt := dt;
      timePoints := [];
      velocityPoints := [];
      controlInputs := [];
    }

    /**
     * Runs the loop for `t = 0, dt, 2 * dt, ...` while `t <= duration`,
     * discarding earlier histories.  Sample `i` records time `i * dt`, the
     * velocity after `i` steps and the input applied at step `i`; the
     * vehicle and controller end in the state after the last step.
     */
    method Run(duration: real := 100.0, setpoint: Option<real> := None)
      returns (times: seq<real>, velocities: seq<real>, inputs: seq<real>)
      requires dt > 0.0 && vehicle.mass != 0.0
      modifies this, vehicle, controller
      ensures Valid() && times == timePoints && velocities == velocityPoints && inputs == controlInputs
      ensures vehicle.mass == old(vehicle.mass) && vehicle.dragCoefficient == old(vehicle.dragCoefficient)
      ensures |timePoints| == SampleCount(duration, dt)
      ensures EvenlySpaced(timePoints, dt, duration)
      ensures FollowsLoop(velocityPoints, controlInputs, vehicle.mass, vehicle.dragCoefficient, dt, old(Start(setpoint)))
      ensures |velocityPoints| > 0 ==> velocityPoints[0] == old(vehicle.velocity)
      ensures forall i :: 0 <= i < |velocityPoints| - 1 ==>
        velocityPoints[i + 1] == EulerStep(vehicle.mass, vehicle.dragCoefficient, velocityPoints[i], controlInputs[i], dt)
      ensures controller == null ==> forall i :: 0 <= i < |controlInputs| ==> controlInputs[i] == 0.0
      ensures LoopState() == LoopAfter(vehicle.mass, vehicle.dragCoefficient, dt, old(Start(setpoint)), |timePoints|)
      ensures controller != null ==>
        controller.kp == old(controller.kp) && controller.ki == old(controller.ki)
        && controller.kd == old(controller.kd)
        && controller.setpoint == (if setpoint.Some? then setpoint.value else old(controller.setpoint))
    {
      timePoints := [];
      velocityPoints := [];
      controlInputs := [];

      if setpoint.Some? && controller != null {
        controller.setpoint := setpoint.value;
        controller.Reset();
      }

      ghost var mass, drag := vehicle.mass, vehicle.dragCoefficient;
      ghost var start := LoopState();
      assert start == old(Start(setpoint));
      ghost var n := SampleCount(duration, dt);
      ghost var steps: nat := 0;
      var t := 0.0;
      while t <= duration
        invariant t == Clock(steps, dt)
        invariant steps <= n
        invariant |timePoints| == |velocityPoints| == |controlInputs| == steps
        invariant vehicle.mass == mass && vehicle.dragCoefficient == drag
        invariant SampleTimes(timePoints, dt, duration)
        invariant FollowsLoop(velocityPoints, controlInputs, mass, drag, dt, start)
        invariant LoopState() == LoopAfter(mass, drag, dt, start, steps)
        invariant controller != null ==>
          controller.kp == old(controller.kp) && controller.ki == old(controller.ki)
          && controller.kd == old(controller.kd)
          && controller.setpoint == (if setpoint.Some? then setpoint.value else old(controller.setpoint))
        decreases n - steps
      {
        RecordedTimes(duration, dt, steps);
        RecordTime(timePoints, dt, duration, steps, t);
        FollowsLoopExtend(velocityPoints, controlInputs, mass, drag, dt, start);
        RecordAndStep(t);
        t := t + dt;
        steps := steps + 1;
      }
      RecordedTimes(duration, dt, steps);
      SampleTimesAreMultiples(timePoints, dt, duration);
      FollowsLoopSteps(velocityPoints, controlInputs, mass, drag, dt, start);
      times, velocities, inputs := timePoints, velocityPoints, controlInputs;
    }

    /**
     * One pass of the loop body: records time `t`, the current velocity and
     * the control input, then steps the controller (if any) and the vehicle.
     */
    method RecordAndStep(t: real)
      requires dt > 0.0 && vehicle.mass != 0.0
      modifies this, vehicle, controller
      ensures timePoints == old(timePoints) + [t]
      ensures velocityPoints == old(velocityPoints) + [old(vehicle.velocity)]
      ensures controlInputs == old(controlInputs) + [ControlInput(old(LoopState()), dt)]
      ensures vehicle.mass == old(vehicle.mass) && vehicle.dragCoefficient == old(vehicle.dragCoefficient)
      ensures LoopState() == LoopStep(vehicle.mass, vehicle.dragCoefficient, dt, old(LoopState()))
      ensures controller != null ==>
        controller.kp == old(controller.kp) && controller.ki == old(controller.ki)
        && controller.kd == old(controller.kd) && controller.setpoint == old(controller.setpoint)
    {
      timePoints := timePoints + [t];
      velocityPoints := velocityPoints + [vehicle.velocity];

      var controlInput := 0.0;
      if controller != null {
        controlInput := controller.Compute(vehicle.velocity, dt);
      }
      controlInputs := controlInputs + [controlInput];

      var _ := vehicle.UpdateState(controlInput, dt);
    }

    /**
     * Time of the earliest sample from which the velocity stays within
     * `setpoint * percent / 100` of the setpoint to the end of the run, or
     * `None` when no sample does (in particular when nothing was recorded).
     * The histories are only read.
     */
    method FindSettlingTime(setpoint: real, errorThresholdPercent: real := 1.0) returns (r: Option<real>)
      requires Valid()
      ensures var s := SettlingIndex(velocityPoints, setpoint, Threshold(setpoint, errorThresholdPercent));
        r == if s.Some? then Some(timePoints[s.value]) else None
    {
      if |velocityPoints| == 0 {
        return None;
      }
      var errorThreshold := setpoint * errorThresholdPercent / 100.0;
      var i := 0;
      while i < |timePoints|
        invariant 0 <= i <= |timePoints|
        invariant forall i' :: 0 <= i' < i ==> !StaysInBand(velocityPoints, setpoint, errorThreshold, i')
      {
        if Abs(velocityPoints[i] - setpoint) <= errorThreshold {
          // does every sample from i to the end lie in the band?
          var stays := true;
          var j := i;
          while j < |velocityPoints| && stays
            invariant i <= j <= |velocityPoints|
            invariant stays <==> forall j' :: i <= j' < j ==> InBand(velocityPoints[j'], setpoint, errorThreshold)
          {
            stays := Abs(velocityPoints[j] - setpoint) <= errorThreshold;
            j := j + 1;
          }
          if stays {
            return Some(timePoints[i]);
          }
        }
        i := i + 1;
      }
      return None;
    }
  }
}

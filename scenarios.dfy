/**
 * Client code replaying the repository's unit tests and end-to-end
 * properties against the contracts of the model alone.
 */
module Scenarios {
  import opened Basics
  import opened VehicleDynamics
  import opened PidControl
  import opened SimulationLoop

  /** A fresh controller holds the given gains and target and empty accumulators. */
  method ControllerInitialisation() {
    var c := new PidController(1.0, 0.5, 0.25, 10.0);
    assert c.kp == 1.0 && c.ki == 0.5 && c.kd == 0.25 && c.setpoint == 10.0;
    assert c.previousError == 0.0 && c.integral == 0.0;
  }

  /** Proportional gain only: output 10, and the integral still accumulates to 5. */
  method ProportionalOnlyControl() {
    var c := new PidController(2.0, 0.0, 0.0, 10.0);
    var output := c.Compute(5.0);
    assert output == 10.0;
    assert c.previousError == 5.0 && c.integral == 5.0;
  }

  /** Integral gain only: two calls at a constant error of 5 give 5 and then 10. */
  method IntegralAccumulation() {
    var c := new PidController(0.0, 1.0, 0.0, 10.0);
    var output1 := c.Compute(5.0, 1.0);
    assert output1 == 5.0 && c.integral == 5.0;
    var output2 := c.Compute(5.0, 1.0);
    assert output2 == 10.0 && c.integral == 10.0;
  }

  /** Derivative gain only: the first call differentiates against a previous error of 0. */
  method DerivativeTerm() {
    var c := new PidController(0.0, 0.0, 1.0, 10.0);
    var output := c.Compute(5.0, 1.0);
    assert output == 5.0;
  }

  /** Reset clears both accumulators and keeps gains and target. */
  method ResetKeepsGains() {
    var c := new PidController(2.0, 0.5, 0.1, 3.0);
    var _ := c.Compute(1.0);
    c.Reset();
    assert c.View() == Fresh(2.0, 0.5, 0.1, 3.0);
    c.Reset();
    assert c.View() == Fresh(2.0, 0.5, 0.1, 3.0);
  }

  /** Vehicle parameters are stored as given; drag is -5, 5 and 0 at 10, -10 and 0 m/s. */
  method VehicleDrag() {
    var v := new Vehicle(2.0, 5.0, 0.1);
    assert v.mass == 2.0 && v.velocity == 5.0 && v.dragCoefficient == 0.1;
    var forward := new Vehicle(initialVelocity := 10.0, dragCoefficient := 0.05);
    assert forward.DragForce() == -5.0;
    var backward := new Vehicle(initialVelocity := -10.0, dragCoefficient := 0.05);
    assert backward.DragForce() == 5.0;
    var still := new Vehicle(initialVelocity := 0.0, dragCoefficient := 0.05);
    assert still.DragForce() == 0.0;
  }

  /** One Euler step from 10 m/s: 5 when coasting, 15 with 10 N, 7.5 with half a second. */
  method VehicleUpdate() {
    var a := new Vehicle(1.0, 10.0, 0.05);
    var va := a.UpdateState(0.0, 1.0);
    assert va == 5.0 && a.velocity == 5.0;
    var b := new Vehicle(1.0, 10.0, 0.05);
    var vb := b.UpdateState(10.0, 1.0);
    assert vb == 15.0 && b.velocity == 15.0;
    var c := new Vehicle(1.0, 10.0, 0.05);
    var vc := c.UpdateState(0.0, 0.5);
    assert vc == 7.5 && c.velocity == 7.5;
  }

  /** `while t <= 100` with `t += 1` from 0 passes 101 times. */
  lemma HundredSamples()
    ensures SampleCount(100.0, 1.0) == 101
  {
  }

  /** A 100 s run at 1 s steps records 101 samples, the first one at the initial 10 m/s. */
  method HundredSecondRun() {
    var vehicle := new Vehicle(1.0, 10.0, 0.05);
    var controller := new PidController(1.0, 0.6, 0.0, 5.0);
    var sim := new Simulation(vehicle, controller, 1.0);
    var times, velocities, inputs := sim.Run(100.0);
    HundredSamples();
    assert |times| == |velocities| == |inputs| == 101;
    assert velocities[0] == 10.0;
  }

  /** Two runs from identically built simulations record identical histories. */
  method RepeatedRunsAgree(mass: real, v0: real, k: real, kp: real, ki: real, kd: real, target: real,
                           dt: real, duration: real)
    requires mass != 0.0 && dt > 0.0
  {
    var vehicle1 := new Vehicle(mass, v0, k);
    var controller1 := new PidController(kp, ki, kd, target);
    var sim1 := new Simulation(vehicle1, controller1, dt);
    var vehicle2 := new Vehicle(mass, v0, k);
    var controller2 := new PidController(kp, ki, kd, target);
    var sim2 := new Simulation(vehicle2, controller2, dt);
    ghost var start := sim1.Start(Some(target));
    assert sim2.Start(Some(target)) == start;
    var t1, v1, u1 := sim1.Run(duration, Some(target));
    var t2, v2, u2 := sim2.Run(duration, Some(target));
    assert |t1| == |t2| == |v1| == |v2| == |u1| == |u2|;
    forall i | 0 <= i < |t1| ensures t1[i] == t2[i] && v1[i] == v2[i] && u1[i] == u2[i] {
      var w := LoopAfter(mass, k, dt, start, i);
      assert v1[i] == w.velocity == v2[i];
      assert u1[i] == ControlInput(w, dt) == u2[i];
    }
    assert t1 == t2 && v1 == v2 && u1 == u2;
  }

  /** Without a controller every recorded input is 0. */
  method UncontrolledRun() {
    var sim := new Simulation(dt := 0.5);
    var times, velocities, inputs := sim.Run(10.0);
    assert |inputs| == 21;
    assert forall i :: 0 <= i < |inputs| ==> inputs[i] == 0.0;
  }
}

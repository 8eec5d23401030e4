/**
 * A vehicle moving in one dimension as a point mass subject to quadratic
 * drag, advanced in time by forward-Euler steps.
 */
module VehicleDynamics {
  import opened Basics

  /** The three-valued sign used by the drag law: +1, -1 or 0. */
  function Sign(v: real): int
  {
    if v > 0.0 then 1 else if v < 0.0 then -1 else 0
  }

  /**
   * Drag force on a body moving at velocity `v` with drag coefficient `k`:
   * `-sign(v) * k * v^2`.  It equals `-k * v * |v|`, vanishes exactly when
   * the body is at rest or the coefficient is zero, and opposes the motion.
   */
  function Drag(k: real, v: real): (f: real)
    ensures f == -k * v * Abs(v)
    ensures f == 0.0 <==> (v == 0.0 || k == 0.0)
    ensures k > 0.0 && v > 0.0 ==> f < 0.0
    ensures k > 0.0 && v < 0.0 ==> f > 0.0
  {
    -(Sign(v) as real) * k * (v * v)
  }

  /** Drag is an odd function of the velocity. */
  lemma DragIsOdd(k: real, v: real)
    ensures Drag(k, -v) == -Drag(k, v)
  {
  }

  /** Velocity after one forward-Euler step of length `dt` under the external force `force`. */
  function EulerStep(mass: real, k: real, v: real, force: real, dt: real): real
    requires mass != 0.0
  {
    v + (Drag(k, v) + force) / mass * dt
  }

  /**
   * A step leaves the velocity where it was exactly when the step has zero
   * length or the external force cancels the drag.
   */
  lemma StepKeepsVelocity(mass: real, k: real, v: real, force: real, dt: real)
    requires mass != 0.0
    ensures EulerStep(mass, k, v, force, dt) == v <==> (dt == 0.0 || force == -Drag(k, v))
  {
  }

  /**
   * Coasting (no external force) with non-negative drag never speeds up a
   * vehicle moving forward, for a positive mass and a non-negative step.
   */
  lemma CoastingNeverSpeedsUp(mass: real, k: real, v: real, dt: real)
    requires mass > 0.0 && k >= 0.0 && dt >= 0.0 && v > 0.0
    ensures EulerStep(mass, k, v, 0.0, dt) <= v
  {
  }

  /** The forward-Euler step can overshoot past zero: from 10 m/s with k = 1 it lands at -90 m/s. */
  lemma CoastingCanOvershoot()
    ensures EulerStep(1.0, 1.0, 10.0, 0.0, 1.0) == -90.0
  {
  }

  /** A vehicle whose velocity is updated in place. */
  class Vehicle {
    var mass: real
    var velocity: real
    var dragCoefficient: real

    /** Stores mass (kg), initial velocity (m/s) and drag coefficient (kg/m) as given. */
    constructor (mass: real := 1.0, initialVelocity: real := 10.0, dragCoefficient: real := 0.05)
      ensures this.mass == mass && velocity == initialVelocity
      ensures this.dragCoefficient == dragCoefficient
    {
      this.mass := mass;
      velocity := initialVelocity;
      this.dragCoefficient := dragCoefficient;
    }

    /** Drag force at the current velocity; reads the vehicle and changes nothing. */
    function DragForce(): real
      reads this
    {
      Drag(dragCoefficient, velocity)
    }

    /**
     * One forward-Euler step: the velocity becomes `v + (drag + force) / mass * dt`
     * and is returned; mass and drag coefficient are left alone.
     */
    method UpdateState(externalForce: real := 0.0, dt: real := 1.0) returns (newVelocity: real)
      requires mass != 0.0
      modifies this`velocity
      ensures velocity == EulerStep(mass, dragCoefficient, old(velocity), externalForce, dt)
      ensures newVelocity == velocity
      ensures mass == old(mass) && dragCoefficient == old(dragCoefficient)
    {
      var dragForce := DragForce();
      var totalForce := dragForce + externalForce;
      var acceleration := totalForce / mass;
      velocity := velocity + acceleration * dt;
      newVelocity := velocity;
    }
  }
}

/**
 * A three-term (proportional, integral, derivative) feedback controller
 * whose integral and previous error are accumulated in place.
 */
module PidControl {

  /** Value view of a controller: three gains, the target and the two accumulators. */
  datatype Pid = Pid(kp: real, ki: real, kd: real, setpoint: real, integral: real, previousError: real)

  /** A controller as constructed: the given gains and target, both accumulators at zero. */
  function Fresh(kp: real, ki: real, kd: real, setpoint: real): Pid
  {
    Pid(kp, ki, kd, setpoint, 0.0, 0.0)
  }

  /**
   * Output of one compute call at process value `pv` over the step `dt`:
   * proportional term on the error, integral term on the integral that
   * already includes this step's `error * dt`, and derivative term on the
   * change of error since the previous call.
   */
  function Output(c: Pid, pv: real, dt: real): real
    requires dt != 0.0
  {
    var error := c.setpoint - pv;
    c.kp * error + c.ki * (c.integral + error * dt) + c.kd * ((error - c.previousError) / dt)
  }

  /** Controller after one compute call: the integral absorbs `error * dt` and the error is remembered. */
  function Advance(c: Pid, pv: real, dt: real): Pid
  {
    var error := c.setpoint - pv;
    c.(integral := c.integral + error * dt, previousError := error)
  }

  /** Controller after a reset: both accumulators at zero, gains and target kept. */
  function Cleared(c: Pid): Pid
  {
    c.(integral := 0.0, previousError := 0.0)
  }

  /** The controller after `n` compute calls that all observe the same process value. */
  function Repeat(c: Pid, pv: real, dt: real, n: nat): Pid
  {
    if n == 0 then c else Advance(Repeat(c, pv, dt, n - 1), pv, dt)
  }

  /**
   * With a constant error `e` the integral grows by exactly `n * e * dt`
   * over `n` calls, whatever the gains (it accumulates even when `ki == 0`);
   * after at least one call the previous error is `e`; gains and target
   * never change.
   */
  lemma {:induction false} RepeatAccumulates(c: Pid, pv: real, dt: real, n: nat)
    ensures Repeat(c, pv, dt, n).kp == c.kp && Repeat(c, pv, dt, n).ki == c.ki
    ensures Repeat(c, pv, dt, n).kd == c.kd && Repeat(c, pv, dt, n).setpoint == c.setpoint
    ensures Repeat(c, pv, dt, n).integral == c.integral + (n as real) * (c.setpoint - pv) * dt
    ensures Repeat(c, pv, dt, n).previousError == if n == 0 then c.previousError else c.setpoint - pv
  {
    if n > 0 {
      RepeatAccumulates(c, pv, dt, n - 1);
      var e := c.setpoint - pv;
      assert (n - 1) as real * e * dt + e * dt == (n as real) * e * dt;
    }
  }

  /**
   * Closed form of the output of call number `i + 1` under a constant error
   * `e`: the integral term sees `(i + 1) * e * dt` on top of the starting
   * integral, and the derivative term sees the starting previous error on
   * the first call and no change of error afterwards.
   */
  lemma RepeatOutput(c: Pid, pv: real, dt: real, i: nat)
    requires dt != 0.0
    ensures var e := c.setpoint - pv;
      Output(Repeat(c, pv, dt, i), pv, dt)
      == c.kp * e + c.ki * (c.integral + (i + 1) as real * e * dt)
         + c.kd * ((e - (if i == 0 then c.previousError else e)) / dt)
  {
    RepeatAccumulates(c, pv, dt, i);
    var e := c.setpoint - pv;
    assert c.integral + (i as real) * e * dt + e * dt == c.integral + (i + 1) as real * e * dt;
  }

  /** On the first call after construction or reset the derivative term is `kd * error / dt`, not zero. */
  lemma FirstCallDerivative(c: Pid, pv: real, dt: real)
    requires dt != 0.0
    ensures var e := c.setpoint - pv;
      Output(Cleared(c), pv, dt) == c.kp * e + c.ki * (e * dt) + c.kd * (e / dt)
  {
  }

  /** A controller whose accumulators are updated in place by every compute call. */
  class PidController {
    var kp: real
    var ki: real
    var kd: real
    var setpoint: real
    var integral: real
    var previousError: real

    /** The controller's current value. */
    function View(): Pid
      reads this
    {
      Pid(kp, ki, kd, setpoint, integral, previousError)
    }

    /** Stores the gains and target as given; integral and previous error start at zero. */
    constructor (kp: real := 1.0, ki: real := 0.0, kd: real := 0.0, setpoint: real := 0.0)
      ensures View() == Fresh(kp, ki, kd, setpoint)
    {
      this.kp := kp;
      this.ki := ki;
      this.kd := kd;
      this.setpoint := setpoint;
      previousError := 0.0;
      integral := 0.0;
    }

    /**
     * One control step: returns the three-term output and updates the
     * integral and previous error; gains and target are not changed.
     */
    method Compute(processVariable: real, dt: real := 1.0) returns (output: real)
      requires dt != 0.0
      modifies this`integral, this`previousError
      ensures output == Output(old(View()), processVariable, dt)
      ensures View() == Advance(old(View()), processVariable, dt)
      ensures integral == old(integral) + (setpoint - processVariable) * dt
      ensures previousError == setpoint - processVariable
    {
      var error := setpoint - processVariable;
      var pTerm := kp * error;
      integral := integral + error * dt;
      var iTerm := ki * integral;
      var derivative := (error - previousError) / dt;
      var dTerm := kd * derivative;
      previousError := error;
      output := pTerm + iTerm + dTerm;
    }

    /** Zeroes integral and previous error and touches nothing else, so a second reset changes nothing. */
    method Reset()
      modifies this`integral, this`previousError
      ensures View() == Cleared(old(View()))
      ensures integral == 0.0 && previousError == 0.0
    {
      previousError := 0.0;
      integral := 0.0;
    }
  }
}

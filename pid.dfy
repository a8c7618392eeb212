/**
 * The single-axis PID controller of drone_backend/src/tello/controller.py
 * (class PIDController). Python floats are modelled as `real`; IEEE rounding
 * is not modelled.
 */
module Pid {

  /** The three gains, fixed at construction. */
  datatype Gains = Gains(kp: real, ki: real, kd: real)

  /** The two accumulators that `calculate` updates and `reset` clears. */
  datatype PidState = PidState(integral: real, previousError: real)

  const Zero := PidState(0.0, 0.0)

  /** The time step `track_target` uses (the default of `calculate`). */
  const DefaultDt: real := 0.1

  /** The accumulators after one call of `calculate(error, dt)`. */
  function Advance(s: PidState, error: real, dt: real): PidState
  {
    PidState(s.integral + error * dt, error)
  }

  /** One call of `calculate(error, dt)`: the new accumulators and the output. */
  function Step(g: Gains, s: PidState, error: real, dt: real): (r: (PidState, real))
    requires dt != 0.0
    ensures r.0 == Advance(s, error, dt)
  {
    var next := Advance(s, error, dt);
    var derivative := (error - s.previousError) / dt;
    (next, g.kp * error + g.ki * next.integral + g.kd * derivative)
  }

  /** The accumulators after feeding `errors` one by one, oldest first. */
  function Run(s: PidState, errors: seq<real>, dt: real): PidState
  {
    if errors == [] then s
    else Advance(Run(s, errors[..|errors| - 1], dt), errors[|errors| - 1], dt)
  }

  function Sum(xs: seq<real>): real
  {
    if xs == [] then 0.0 else Sum(xs[..|xs| - 1]) + xs[|xs| - 1]
  }

  /**
   * The integral is the plain sum of error * dt over every call since the
   * last reset: nothing clamps it (there is no anti-windup), and the
   * previous error is the last error fed in.
   */
  lemma {:induction false} RunAccumulates(s: PidState, errors: seq<real>, dt: real)
    ensures Run(s, errors, dt).integral == s.integral + dt * Sum(errors)
    ensures Run(s, errors, dt).previousError
         == if errors == [] then s.previousError else errors[|errors| - 1]
  {
    if errors != [] {
      var earlier := errors[..|errors| - 1];
      var last := errors[|errors| - 1];
      RunAccumulates(s, earlier, dt);
      assert dt * Sum(errors) == dt * Sum(earlier) + dt * last;
    }
  }

  function Repeat(e: real, n: nat): (r: seq<real>)
    ensures |r| == n && forall i :: 0 <= i < n ==> r[i] == e
  {
    if n == 0 then [] else Repeat(e, n - 1) + [e]
  }

  lemma {:induction false} SumRepeat(e: real, n: nat)
    ensures Sum(Repeat(e, n)) == n as real * e
  {
    if n > 0 {
      assert Repeat(e, n)[..n - 1] == Repeat(e, n - 1);
      SumRepeat(e, n - 1);
    }
  }

  /**
   * Integral windup: a constant error held for n steps after a reset leaves
   * n * error * dt in the integral, growing without bound in n.
   */
  lemma ConstantErrorWindsUp(e: real, n: nat, dt: real)
    ensures Run(Zero, Repeat(e, n), dt).integral == n as real * e * dt
  {
    var errors := Repeat(e, n);
    RunAccumulates(Zero, errors, dt);
    SumRepeat(e, n);
    assert Run(Zero, errors, dt).integral == dt * (n as real * e);
  }

  /**
   * The derivative term acts only on a change of error: when the error
   * equals the previous one, the output is the P and I terms alone.
   */
  lemma SteadyErrorHasNoDerivative(g: Gains, s: PidState, error: real, dt: real)
    requires dt != 0.0 && s.previousError == error
    ensures Step(g, s, error, dt).1 == g.kp * error + g.ki * (s.integral + error * dt)
  {
    assert (error - s.previousError) / dt == 0.0;
  }

  /**
   * From reset accumulators one call acts as a pure proportional gain:
   * the output is (kp + ki * dt + kd / dt) times the error.
   */
  lemma FreshStepIsProportional(g: Gains, error: real, dt: real)
    requires dt != 0.0
    ensures Step(g, Zero, error, dt).1 == (g.kp + g.ki * dt + g.kd / dt) * error
  {
    assert (error - 0.0) / dt == error / dt;
    assert g.kd * (error / dt) == (g.kd / dt) * error;
  }

  class PidController {
    const kp: real
    const ki: real
    const kd: real
    var integral: real
    var previousError: real

    function Gain(): Gains { Gains(kp, ki, kd) }

    function State(): PidState
      reads this
    {
      PidState(integral, previousError)
    }

    constructor (kp: real, ki: real, kd: real)
      ensures Gain() == Gains(kp, ki, kd) && State() == Zero
    {
      this.kp, this.ki, this.kd := kp, ki, kd;
      previousError, integral := 0.0, 0.0;
    }

    /** `calculate`: advance the accumulators by one error sample. */
    method Calculate(error: real, dt: real) returns (output: real)
      requires dt != 0.0
      modifies this
      ensures State() == Step(Gain(), old(State()), error, dt).0
      ensures output == Step(Gain(), old(State()), error, dt).1
      ensures integral == old(integral) + error * dt && previousError == error
      ensures output == kp * error + ki * integral + kd * (error - old(previousError)) / dt
    {
      integral := integral + error * dt;
      var derivative := (error - previousError) / dt;
      output := kp * error + ki * integral + kd * derivative;
      previousError := error;
    }

    /** `reset`: both accumulators back to zero, gains kept. */
    method Reset()
      modifies this
      ensures State() == Zero
    {
      previousError := 0.0;
      integral := 0.0;
    }
  }
}

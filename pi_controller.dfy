/**
 * The PI fallback controller: proportional action on the temperature error
 * plus an integral term that is only accumulated while the previous output
 * was not saturated, with the integral and the output both clamped.
 */
module PI {
  import opened Base

  const KP_DEFAULT: real := 10.0
  const TI_DEFAULT: real := 1500.0
  const DT_DEFAULT: real := 600.0
  const ANTI_WINDUP_LIMIT_DEFAULT: real := 100.0
  const OUTPUT_MIN_DEFAULT: real := 0.0
  const OUTPUT_MAX_DEFAULT: real := 100.0

  /** `PIControllerState`: integral accumulator, last error, last output and the saturation flag. */
  datatype PIState = PIState(integral: real, lastError: real, lastOutput: real, saturated: bool)

  function InitialState(): PIState
  {
    PIState(0.0, 0.0, 0.0, false)
  }

  /** The controller's tuning: gains, sampling time, output range and anti-windup limit. */
  datatype Gains = Gains(kp: real, ti: real, dt: real, outputMin: real, outputMax: real, antiWindupLimit: real)
  {
    /** The one configuration in which the integral limit divides by zero. */
    predicate DividesByZero()
    {
      ti > 0.0 && kp == 0.0
    }

    /** The integral limit anti_windup_limit/(kp/ti), or 0 without integral action. */
    function MaxIntegral(): real
      requires !DividesByZero()
    {
      if ti > 0.0 then antiWindupLimit / (kp / ti) else 0.0
    }

    /** The integral gain kp/ti, or 0 without integral action. */
    function IntegralGain(): real
    {
      if ti > 0.0 then kp / ti else 0.0
    }
  }

  function Error(setpoint: real, measurement: real): real
  {
    setpoint - measurement
  }

  /** The integral after the conditional accumulation, before clamping. */
  function Accumulated(s: PIState, e: real, dt: real): real
  {
    if !s.saturated then s.integral + e * dt else s.integral
  }

  /** The output before saturation: kp·e + (kp/ti)·integral. */
  function RawOutput(t: Gains, e: real, integral: real): real
  {
    t.kp * e + t.IntegralGain() * integral
  }

  /** One `update` call on the controller state, returning the new state and the output. */
  function Step(t: Gains, s: PIState, setpoint: real, measurement: real, dt: real): (r: (PIState, real))
    requires !t.DividesByZero()
    ensures t.outputMin <= t.outputMax ==> t.outputMin <= r.1 <= t.outputMax
  {
    var e := Error(setpoint, measurement);
    var mi := t.MaxIntegral();
    var integral := Clamp(-mi, mi, Accumulated(s, e, dt));
    var output := RawOutput(t, e, integral);
    var u := Clamp(t.outputMin, t.outputMax, output);
    (PIState(integral, e, u, output != u), u)
  }

  /**
   * The output is kp·e + (kp/ti)·integral clamped to the output range; the
   * saturation flag records exactly whether clamping changed it; error and
   * output are remembered for the next call.
   */
  lemma {:induction false} StepOutput(t: Gains, s: PIState, setpoint: real, measurement: real, dt: real)
    requires !t.DividesByZero()
    ensures var (s', u) := Step(t, s, setpoint, measurement, dt);
      var raw := RawOutput(t, Error(setpoint, measurement), s'.integral);
      u == Clamp(t.outputMin, t.outputMax, raw) &&
      (s'.saturated <==> raw != u) &&
      s'.lastError == setpoint - measurement && s'.lastOutput == u
  {
  }

  /**
   * Conditional integration: error·dt is added only when the previous call
   * did not saturate; in either case the integral is then clamped to
   * ±max_integral.
   */
  lemma {:induction false} StepIntegral(t: Gains, s: PIState, setpoint: real, measurement: real, dt: real)
    requires !t.DividesByZero()
    ensures var s' := Step(t, s, setpoint, measurement, dt).0;
      var mi := t.MaxIntegral();
      (!s.saturated ==> s'.integral == Clamp(-mi, mi, s.integral + (setpoint - measurement) * dt)) &&
      (s.saturated ==> s'.integral == Clamp(-mi, mi, s.integral))
  {
  }

  /**
   * After every update the integral is bounded: |integral| ≤ |max_integral|,
   * which is anti_windup_limit/(kp/ti) for positive gains and limit.
   */
  lemma {:induction false} IntegralBounded(t: Gains, s: PIState, setpoint: real, measurement: real, dt: real)
    requires !t.DividesByZero()
    ensures Abs(Step(t, s, setpoint, measurement, dt).0.integral) <= Abs(t.MaxIntegral())
    ensures t.kp > 0.0 && t.ti > 0.0 && t.antiWindupLimit >= 0.0 ==>
      Abs(Step(t, s, setpoint, measurement, dt).0.integral) <= t.antiWindupLimit / (t.kp / t.ti)
  {
    var mi := t.MaxIntegral();
    if t.kp > 0.0 && t.ti > 0.0 && t.antiWindupLimit >= 0.0 {
      assert t.kp / t.ti > 0.0;
      assert mi >= 0.0;
    }
  }

  /**
   * Without integral action (ti ≤ 0) the integral is forced to 0 and the
   * output is the clamped proportional term, so it does not depend on the
   * controller's history: repeated identical calls return the same value.
   */
  lemma {:induction false} NoIntegralActionIsStateless(t: Gains, s1: PIState, s2: PIState, setpoint: real, measurement: real, dt: real)
    requires t.ti <= 0.0
    ensures Step(t, s1, setpoint, measurement, dt).0.integral == 0.0
    ensures Step(t, s1, setpoint, measurement, dt).1 == Clamp(t.outputMin, t.outputMax, t.kp * (setpoint - measurement))
    ensures Step(t, s1, setpoint, measurement, dt).1 == Step(t, s2, setpoint, measurement, dt).1
  {
  }

  class PIController {
    var kp: real
    var ti: real
    var dt: real
    const outputMin: real
    const outputMax: real
    const antiWindupLimit: real
    var state: PIState

    function Tuning(): Gains
      reads this
    {
      Gains(kp, ti, dt, outputMin, outputMax, antiWindupLimit)
    }

    constructor (kp: real, ti: real, dt: real, outputMin: real, outputMax: real, antiWindupLimit: real)
      ensures Tuning() == Gains(kp, ti, dt, outputMin, outputMax, antiWindupLimit)
      ensures state == InitialState()
    {
      this.kp := kp;
      this.ti := ti;
      this.dt := dt;
      this.outputMin := outputMin;
      this.outputMax := outputMax;
      this.antiWindupLimit := antiWindupLimit;
      state := InitialState();
    }

    /**
     * `update`: one control step with the sampling time defaulting to the
     * controller's own. With ti > 0 and kp = 0 the integral limit divides by
     * zero: the call raises after the integral has already been accumulated.
     */
    method Update(setpoint: real, measurement: real, stepDt: Option<real>) returns (r: Result<real>)
      modifies this
      ensures Tuning() == old(Tuning())
      ensures var h := if stepDt.Some? then stepDt.value else old(dt);
        if old(Tuning()).DividesByZero() then
          r.Failure? && state == old(state).(integral := Accumulated(old(state), setpoint - measurement, h))
        else
          (state, r) == (Step(old(Tuning()), old(state), setpoint, measurement, h).0,
                         Success(Step(old(Tuning()), old(state), setpoint, measurement, h).1))
    {
      var h := if stepDt.Some? then stepDt.value else dt;
      var error := Error(setpoint, measurement);
      state := state.(integral := Accumulated(state, error, h));
      if Tuning().DividesByZero() {
        return Failure("float division by zero");
      }
      var maxIntegral := Tuning().MaxIntegral();
      state := state.(integral := Clamp(-maxIntegral, maxIntegral, state.integral));
      var output := RawOutput(Tuning(), error, state.integral);
      var outputSaturated := Clamp(outputMin, outputMax, output);
      state := PIState(state.integral, error, outputSaturated, output != outputSaturated);
      return Success(outputSaturated);
    }

    /** `reset`: integral, last error and last output zero, saturation cleared. */
    method Reset()
      modifies this
      ensures state == InitialState()
      ensures Tuning() == old(Tuning())
    {
      state := InitialState();
    }

    /** `set_parameters`: only the supplied gains change; the controller state is kept. */
    method SetParameters(newKp: Option<real>, newTi: Option<real>, newDt: Option<real>)
      modifies this
      ensures kp == (if newKp.Some? then newKp.value else old(kp))
      ensures ti == (if newTi.Some? then newTi.value else old(ti))
      ensures dt == (if newDt.Some? then newDt.value else old(dt))
      ensures state == old(state)
    {
      if newKp.Some? {
        kp := newKp.value;
      }
      if newTi.Some? {
        ti := newTi.value;
      }
      if newDt.Some? {
        dt := newDt.value;
      }
    }
  }
}

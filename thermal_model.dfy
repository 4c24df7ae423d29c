/**
 * The 1R1C room model: a thermal resistance R [K/W] to the outdoors and a
 * thermal capacity C [J/K], discretised with sampling time dt into
 *
 *   T(k+1) = A·T(k) + B·u(k) + Bd·T_out(k)   (+ B·Q(k) when Q(k) ≠ 0)
 *
 * with A = exp(−dt/(R·C)), B = R·(1 − A) and Bd = 1 − A.
 */
module Thermal {
  import opened Base

  const R_DEFAULT: real := 0.01
  const C_DEFAULT: real := 1000000.0
  const DT_DEFAULT: real := 600.0

  /** Lower and upper end of the typical time constant range (1 h, 12 h); only logged. */
  const TAU_TYPICAL_MIN: real := 3600.0
  const TAU_TYPICAL_MAX: real := 43200.0

  datatype Parameters = Parameters(R: real, C: real)
  {
    /** τ = R·C in seconds; positive for physically valid parameters. */
    function TimeConstant(): (tau: real)
      ensures R > 0.0 && C > 0.0 ==> tau > 0.0
      ensures R > 0.0 && C < 0.0 ==> tau < 0.0
    {
      R * C
    }

    /**
     * Physically reasonable parameters: R and C positive. A time constant
     * outside the typical range is only reported, never rejected.
     */
    predicate Validate()
    {
      if R <= 0.0 then false
      else if C <= 0.0 then false
      else
        var tau := TimeConstant();
        if tau < TAU_TYPICAL_MIN || tau > TAU_TYPICAL_MAX then true  // warning only
        else true
    }
  }

  function DefaultParameters(): Parameters
  {
    Parameters(R_DEFAULT, C_DEFAULT)
  }

  lemma ValidateIff(p: Parameters)
    ensures p.Validate() <==> p.R > 0.0 && p.C > 0.0
    ensures p.Validate() ==> p.TimeConstant() > 0.0
  {
  }

  /** Parameters whose time constant is far outside [1 h, 12 h] still validate. */
  lemma AtypicalTimeConstantStillValid()
    ensures Parameters(0.001, 1000.0).Validate()
    ensures Parameters(0.001, 1000.0).TimeConstant() < TAU_TYPICAL_MIN
    ensures Parameters(1.0, 100000.0).Validate()
    ensures Parameters(1.0, 100000.0).TimeConstant() > TAU_TYPICAL_MAX
  {
  }

  /** The discrete-time coefficients A, B and Bd. */
  datatype Coefficients = Coefficients(A: real, B: real, Bd: real)

  /**
   * Discretisation of valid parameters. For dt > 0 the decay factor A is
   * strictly between 0 and 1, so the input gain B is positive and the
   * outdoor gain Bd lies strictly between 0 and 1.
   */
  function Discretize(p: Parameters, dt: real, libm: Libm): (c: Coefficients)
    requires p.Validate()
    ensures ExpLawful(libm) ==> c.A > 0.0
    ensures ExpLawful(libm) && dt > 0.0 ==> c.A < 1.0 && c.B > 0.0 && 0.0 < c.Bd < 1.0
  {
    MulPositive(p.R, p.C);
    var A := DecayFactor(p, dt, libm);
    var c := Coefficients(A, p.R * (1.0 - A), 1.0 - A);
    DecayBounds(p, dt, libm, c);
    c
  }

  /** A = exp(−dt/(R·C)). */
  function DecayFactor(p: Parameters, dt: real, libm: Libm): (A: real)
    requires p.R * p.C != 0.0
  {
    Exp(libm, DecayExponent(p, dt))
  }

  /** −dt/(R·C), negative for a positive sampling time and valid parameters. */
  function DecayExponent(p: Parameters, dt: real): (x: real)
    requires p.R * p.C != 0.0
    ensures p.R * p.C > 0.0 && dt > 0.0 ==> x < 0.0
  {
    -dt / (p.R * p.C)
  }

  lemma DecayBounds(p: Parameters, dt: real, libm: Libm, c: Coefficients)
    requires p.R > 0.0 && p.R * p.C > 0.0
    requires c == Coefficients(DecayFactor(p, dt, libm), p.R * (1.0 - c.A), 1.0 - c.A)
    ensures ExpLawful(libm) ==> c.A > 0.0
    ensures ExpLawful(libm) && dt > 0.0 ==> c.A < 1.0 && c.B > 0.0 && 0.0 < c.Bd < 1.0
  {
    if ExpLawful(libm) {
      ExpBounds(libm, DecayExponent(p, dt));
      if dt > 0.0 {
        MulPositive(p.R, 1.0 - c.A);
      }
    }
  }

  lemma ExpBounds(libm: Libm, x: real)
    requires ExpLawful(libm)
    ensures Exp(libm, x) > 0.0
    ensures x < 0.0 ==> Exp(libm, x) < 1.0
  {
  }

  /** The gains are tied exactly: Bd = 1 − A and B = R·Bd. */
  lemma {:induction false} CoefficientRelations(p: Parameters, dt: real, libm: Libm)
    requires p.Validate()
    ensures Discretize(p, dt, libm).Bd == 1.0 - Discretize(p, dt, libm).A
    ensures Discretize(p, dt, libm).B == p.R * Discretize(p, dt, libm).Bd
  {
  }

  /** `simulate_step`: one step of the discrete model. */
  function SimulateStep(c: Coefficients, T: real, u: real, Tout: real, Q: real): real
  {
    var next := c.A * T + c.B * u + c.Bd * Tout;
    if Q != 0.0 then next + c.B * Q else next
  }

  /** The disturbance branch changes nothing numerically: skipping B·0 is the same as adding it. */
  lemma SimulateStepLinear(c: Coefficients, T: real, u: real, Tout: real, Q: real)
    ensures SimulateStep(c, T, u, Tout, Q) == c.A * T + c.B * (u + Q) + c.Bd * Tout
  {
  }

  /**
   * The temperature trajectory from T0 under the input sequences: N + 1
   * values starting at T0, each obtained from the previous by one step.
   */
  function Trajectory(c: Coefficients, T0: real, u: seq<real>, Tout: seq<real>, Q: seq<real>): (traj: seq<real>)
    requires |Tout| == |u| && |Q| == |u|
    ensures |traj| == |u| + 1
    ensures traj[0] == T0
    decreases |u|
  {
    if |u| == 0 then [T0]
    else
      var n := |u| - 1;
      var prefix := Trajectory(c, T0, u[..n], Tout[..n], Q[..n]);
      prefix + [SimulateStep(c, prefix[n], u[n], Tout[n], Q[n])]
  }

  /** Every entry of the trajectory is one step from its predecessor. */
  lemma {:induction false} TrajectoryStep(c: Coefficients, T0: real, u: seq<real>, Tout: seq<real>, Q: seq<real>)
    requires |Tout| == |u| && |Q| == |u|
    ensures forall k :: 0 <= k < |u| ==>
      Trajectory(c, T0, u, Tout, Q)[k + 1] == SimulateStep(c, Trajectory(c, T0, u, Tout, Q)[k], u[k], Tout[k], Q[k])
    decreases |u|
  {
    if |u| > 0 {
      var n := |u| - 1;
      TrajectoryStep(c, T0, u[..n], Tout[..n], Q[..n]);
      var prefix := Trajectory(c, T0, u[..n], Tout[..n], Q[..n]);
      var traj := Trajectory(c, T0, u, Tout, Q);
      assert traj == prefix + [SimulateStep(c, prefix[n], u[n], Tout[n], Q[n])];
      forall k | 0 <= k < n
        ensures traj[k + 1] == SimulateStep(c, traj[k], u[k], Tout[k], Q[k])
      {
        assert u[..n][k] == u[k] && Tout[..n][k] == Tout[k] && Q[..n][k] == Q[k];
      }
    }
  }

  /** The trajectory of a prefix of the inputs is the prefix of the trajectory. */
  lemma {:induction false} TrajectoryPrefix(c: Coefficients, T0: real, u: seq<real>, Tout: seq<real>, Q: seq<real>, m: nat)
    requires |Tout| == |u| && |Q| == |u| && m <= |u|
    ensures Trajectory(c, T0, u[..m], Tout[..m], Q[..m]) == Trajectory(c, T0, u, Tout, Q)[..m + 1]
    decreases |u| - m
  {
    if m < |u| {
      TrajectoryPrefix(c, T0, u, Tout, Q, m + 1);
      var um, om, qm := u[..m + 1], Tout[..m + 1], Q[..m + 1];
      assert um[..m] == u[..m] && om[..m] == Tout[..m] && qm[..m] == Q[..m];
    } else {
      assert u[..m] == u && Tout[..m] == Tout && Q[..m] == Q;
    }
  }

  /** `steady_state_temperature`: T_ss = T_out + R·(u + Q). */
  function SteadyState(p: Parameters, u: real, Tout: real, Q: real): real
  {
    Tout + p.R * (u + Q)
  }

  /** The steady state is a fixed point of one step with the same constant inputs. */
  lemma {:induction false} SteadyStateIsFixedPoint(p: Parameters, dt: real, libm: Libm, u: real, Tout: real, Q: real)
    requires p.Validate()
    ensures SimulateStep(Discretize(p, dt, libm), SteadyState(p, u, Tout, Q), u, Tout, Q) == SteadyState(p, u, Tout, Q)
  {
    var c := Discretize(p, dt, libm);
    StepDeviation(p, dt, libm, SteadyState(p, u, Tout, Q), u, Tout, Q);
  }

  /**
   * One step scales the deviation from the steady state by A; for dt > 0
   * the deviation strictly shrinks, so the model converges to T_ss.
   */
  lemma {:induction false} StepDeviation(p: Parameters, dt: real, libm: Libm, T: real, u: real, Tout: real, Q: real)
    requires p.Validate()
    ensures SimulateStep(Discretize(p, dt, libm), T, u, Tout, Q) - SteadyState(p, u, Tout, Q)
         == Discretize(p, dt, libm).A * (T - SteadyState(p, u, Tout, Q))
  {
    var c := Discretize(p, dt, libm);
    var Tss := SteadyState(p, u, Tout, Q);
    SimulateStepLinear(c, T, u, Tout, Q);
    calc {
      SimulateStep(c, T, u, Tout, Q) - Tss;
      c.A * T + p.R * (1.0 - c.A) * (u + Q) + (1.0 - c.A) * Tout - (Tout + p.R * (u + Q));
      c.A * T - c.A * p.R * (u + Q) - c.A * Tout;
      c.A * (T - Tss);
    }
  }

  /**
   * `heating_power_for_target`: the steady-state heating power for a target
   * temperature, (T_target − T_out)/R − Q, clamped at zero.
   */
  function HeatingPowerForTarget(p: Parameters, Ttarget: real, Tout: real, Q: real): (u: real)
    requires p.R > 0.0
    ensures u >= 0.0
    ensures u == Max(0.0, (Ttarget - Tout) / p.R - Q)
  {
    var raw := (Ttarget - Tout) / p.R - Q;
    Max(0.0, raw)
  }

  /**
   * The heating power inverts the steady state: when the unclamped power is
   * non-negative it reaches the target exactly; otherwise no heating is
   * needed, because the unheated steady state already exceeds the target.
   */
  lemma {:induction false} HeatingPowerInvertsSteadyState(p: Parameters, Ttarget: real, Tout: real, Q: real)
    requires p.R > 0.0
    ensures (Ttarget - Tout) / p.R - Q >= 0.0 ==>
      SteadyState(p, HeatingPowerForTarget(p, Ttarget, Tout, Q), Tout, Q) == Ttarget
    ensures (Ttarget - Tout) / p.R - Q < 0.0 ==>
      HeatingPowerForTarget(p, Ttarget, Tout, Q) == 0.0 && SteadyState(p, 0.0, Tout, Q) > Ttarget
  {
    var raw := (Ttarget - Tout) / p.R - Q;
    if raw >= 0.0 {
      assert p.R * (raw + Q) == Ttarget - Tout;
    } else {
      assert raw + Q < Q;
      assert (Ttarget - Tout) / p.R < Q;
      MulLess(p.R, (Ttarget - Tout) / p.R, Q);
    }
  }

  lemma MulLess(r: real, x: real, y: real)
    requires r > 0.0 && x < y
    ensures r * x < r * y
  {
    MulPositive(r, y - x);
  }

  /**
   * The room model object: its parameters and the coefficients derived from
   * them, which `set_parameters` replaces together.
   */
  class ThermalModel {
    var params: Parameters
    const dt: real
    const libm: Libm
    var A: real
    var B: real
    var Bd: real

    /** The model always holds valid parameters and the coefficients derived from them. */
    ghost predicate Valid()
      reads this
    {
      params.Validate() && Coeffs() == Discretize(params, dt, libm)
    }

    function Coeffs(): Coefficients
      reads this
    {
      Coefficients(A, B, Bd)
    }

    /** Allocation with parameters already known to be valid; `New` is the checked entry point. */
    constructor (params: Parameters, dt: real, libm: Libm)
      requires params.Validate()
      ensures Valid()
      ensures this.params == params && this.dt == dt && this.libm == libm
    {
      this.params := params;
      this.dt := dt;
      this.libm := libm;
      var c := Discretize(params, dt, libm);
      A, B, Bd := c.A, c.B, c.Bd;
    }

    /**
     * `ThermalModel(params, dt)`: missing parameters take the defaults, and
     * invalid ones raise ValueError.
     */
    static method New(params: Option<Parameters>, dt: real, libm: Libm) returns (r: Result<ThermalModel>)
      ensures var p := if params.Some? then params.value else DefaultParameters();
        (r.Success? <==> p.Validate()) &&
        (r.Success? ==> fresh(r.value) && r.value.Valid() && r.value.params == p && r.value.dt == dt)
    {
      var p := if params.Some? then params.value else DefaultParameters();
      if !p.Validate() {
        return Failure("Invalid thermal model parameters");
      }
      var m := new ThermalModel(p, dt, libm);
      return Success(m);
    }

    /** `_update_matrices`: recompute A, B, Bd from the current parameters. */
    method UpdateMatrices()
      requires params.Validate()
      modifies this
      ensures Valid()
      ensures params == old(params)
    {
      var c := Discretize(params, dt, libm);
      A, B, Bd := c.A, c.B, c.Bd;
    }

    /**
     * `set_parameters`: invalid parameters raise ValueError and leave the
     * model untouched; valid ones replace the parameters and coefficients.
     */
    method SetParameters(p: Parameters) returns (s: Status)
      requires Valid()
      modifies this
      ensures Valid()
      ensures s.Ok? <==> p.Validate()
      ensures s.Raised? ==> params == old(params) && Coeffs() == old(Coeffs())
      ensures s.Ok? ==> params == p && Coeffs() == Discretize(p, dt, libm)
    {
      if !p.Validate() {
        return Raised("Invalid thermal model parameters");
      }
      params := p;
      UpdateMatrices();
      return Ok;
    }

    /**
     * `predict`: raises when the outdoor or disturbance sequence has a
     * different length from the heating sequence (missing disturbances are
     * zeros); otherwise returns the N + 1 trajectory values.
     */
    method Predict(T0: real, u: seq<real>, Tout: seq<real>, Q: Option<seq<real>>) returns (r: Result<seq<real>>)
      requires Valid()
      ensures r.Failure? <==> |Tout| != |u| || (Q.Some? && |Q.value| != |u|)
      ensures r.Success? ==> r.value == Trajectory(Coeffs(), T0, u, Tout, if Q.Some? then Q.value else Repeat(0.0, |u|))
    {
      var n := |u|;
      if |Tout| != n {
        return Failure("T_outdoor_sequence length must match u_sequence length");
      }
      var q: seq<real>;
      if Q.None? {
        q := Repeat(0.0, n);
      } else if |Q.value| != n {
        return Failure("Q_disturbances_sequence length must match u_sequence length");
      } else {
        q := Q.value;
      }
      var c := Coeffs();
      ghost var traj := Trajectory(c, T0, u, Tout, q);
      TrajectoryStep(c, T0, u, Tout, q);
      var pred := new real[n + 1];
      pred[0] := T0;
      var k := 0;
      while k < n
        invariant 0 <= k <= n
        invariant forall i :: 0 <= i <= k ==> pred[i] == traj[i]
      {
        pred[k + 1] := SimulateStep(c, pred[k], u[k], Tout[k], q[k]);
        k := k + 1;
      }
      assert pred[..] == traj;
      return Success(pred[..]);
    }
  }
}

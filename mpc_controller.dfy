/**
 * The model-predictive controller's own logic around the optimiser: the
 * horizon configuration, forecast padding, the warm-start initial guess, the
 * cost function and rate constraints handed to SLSQP, the predicted
 * trajectory, and what the controller does with the optimiser's answer.
 * The optimiser itself is an input (`SolverOutcome`).
 */
module MPC {
  import opened Base
  import Thermal

  const MPC_PREDICTION_HORIZON: nat := 24
  const MPC_CONTROL_HORIZON: nat := 12
  const MPC_WEIGHT_COMFORT: real := 1.0
  const MPC_WEIGHT_ENERGY: real := 0.1
  /** The energy and smoothness terms are divided by 1e6 to match the comfort term's scale. */
  const POWER_SCALE: real := 1000000.0

  /** `MPCConfig`: horizons in steps, sampling time, cost weights and input limits. */
  datatype Config = Config(
    Np: nat, Nc: nat, dt: real,
    wComfort: real, wEnergy: real, wSmooth: real,
    uMin: real, uMax: real, duMax: real)

  function DefaultConfig(): Config
  {
    Config(MPC_PREDICTION_HORIZON, MPC_CONTROL_HORIZON, 600.0,
           MPC_WEIGHT_COMFORT, MPC_WEIGHT_ENERGY, 0.1,
           0.0, 2000.0, 500.0)
  }

  /** The constructor's horizon check: a control horizon longer than the prediction horizon is cut to it. */
  function ClampHorizon(cfg: Config): (r: Config)
    ensures r.Nc <= r.Np
    ensures r.Nc == (if cfg.Nc <= cfg.Np then cfg.Nc else cfg.Np)
    ensures r == cfg.(Nc := r.Nc)
  {
    if cfg.Nc > cfg.Np then cfg.(Nc := cfg.Np) else cfg
  }

  /** A cost value; failed optimisations report an infinite cost. */
  datatype Cost = Finite(value: real) | Infinity

  /** `MPCResult`. */
  datatype MPCResult = MPCResult(
    uOptimal: seq<real>, uFirst: real, cost: Cost, success: bool,
    message: string, iterations: int, predictedTemps: Option<seq<real>>)

  /**
   * What `scipy.optimize.minimize` did: converged with a solution, stopped
   * without success, or raised.
   */
  datatype SolverOutcome =
    | Converged(x: seq<real>, fun: real, nit: int)
    | NotConverged(message: string, nit: int)
    | Threw(message: string)

  /** `np.pad(u, (0, n - len(u)), mode="edge")` for a horizon n at least len(u). */
  function HoldLast(u: seq<real>, n: nat): (r: seq<real>)
    requires 0 < |u| <= n
    ensures |r| == n
    ensures forall k :: 0 <= k < n ==> r[k] == u[if k < |u| then k else |u| - 1]
  {
    EdgePad(u, n - |u|)
  }

  /**
   * The forecast as the controller uses it: a forecast shorter than Np is
   * edge-padded to Np, a longer one is kept whole.
   */
  function ExtendForecast(forecast: seq<real>, Np: nat): (r: seq<real>)
    requires |forecast| > 0
    ensures |r| == (if |forecast| < Np then Np else |forecast|)
    ensures r[..|forecast|] == forecast
    ensures forall k :: |forecast| <= k < |r| ==> r[k] == forecast[|forecast| - 1]
  {
    if |forecast| < Np then EdgePad(forecast, Np - |forecast|) else forecast
  }

  /**
   * `_get_initial_guess`: on warm start the previous solution shifted left
   * by one with its last value repeated, cut or edge-padded to Nc; on cold
   * start Nc copies of the previous control.
   */
  function InitialGuess(previous: Option<seq<real>>, uPrev: real, Nc: nat): (r: seq<real>)
    requires previous.Some? ==> |previous.value| > 0
    ensures |r| == Nc
    ensures previous.None? ==> forall i :: 0 <= i < Nc ==> r[i] == uPrev
    ensures previous.Some? ==> forall i :: 0 <= i < Nc ==>
      r[i] == previous.value[if i + 1 < |previous.value| then i + 1 else |previous.value| - 1]
  {
    if previous.Some? then
      var p := previous.value;
      var shifted := p[1..] + [p[|p| - 1]];
      if |shifted| < Nc then EdgePad(shifted, Nc - |shifted|) else shifted[..Nc]
    else
      Repeat(uPrev, Nc)
  }

  /** The stage cost of step k: comfort deviation after the step, energy, and rate of change. */
  function StageCost(cfg: Config, Tnext: real, Tsp: real, u: real, uBefore: real): real
  {
    cfg.wComfort * ((Tnext - Tsp) * (Tnext - Tsp))
      + cfg.wEnergy * (u * u) / POWER_SCALE
      + cfg.wSmooth * ((u - uBefore) * (u - uBefore)) / POWER_SCALE
  }

  /** The input before step k, with the previously applied control before step 0. */
  function Before(uPrev: real, uFull: seq<real>, k: nat): real
    requires k < |uFull|
  {
    if k == 0 then uPrev else uFull[k - 1]
  }

  /** The predicted temperatures T(0..Np) under the held input and no disturbance. */
  function PredictedTemps(c: Thermal.Coefficients, Np: nat, Tcur: real, uFull: seq<real>, forecast: seq<real>): (traj: seq<real>)
    requires |uFull| >= Np && |forecast| >= Np
    ensures |traj| == Np + 1 && traj[0] == Tcur
  {
    Thermal.Trajectory(c, Tcur, uFull[..Np], forecast[..Np], Repeat(0.0, Np))
  }

  /** Each predicted temperature is one model step from the one before, with no disturbance. */
  lemma PredictedSteps(c: Thermal.Coefficients, Np: nat, Tcur: real, uFull: seq<real>, forecast: seq<real>)
    requires |uFull| >= Np && |forecast| >= Np
    ensures forall k :: 0 <= k < Np ==>
      PredictedTemps(c, Np, Tcur, uFull, forecast)[k + 1] ==
      Thermal.SimulateStep(c, PredictedTemps(c, Np, Tcur, uFull, forecast)[k], uFull[k], forecast[k], 0.0)
  {
    var zeros := Repeat(0.0, Np);
    Thermal.TrajectoryStep(c, Tcur, uFull[..Np], forecast[..Np], zeros);
    forall k | 0 <= k < Np
      ensures uFull[..Np][k] == uFull[k] && forecast[..Np][k] == forecast[k] && zeros[k] == 0.0
    {
    }
  }

  /** The Np stage costs along the predicted trajectory. */
  function Stages(cfg: Config, c: Thermal.Coefficients, uPrev: real, uFull: seq<real>, Tcur: real, Tsp: real, forecast: seq<real>): (s: seq<real>)
    requires |uFull| >= cfg.Np && |forecast| >= cfg.Np
    ensures |s| == cfg.Np
  {
    var traj := PredictedTemps(c, cfg.Np, Tcur, uFull, forecast);
    seq(cfg.Np, k requires 0 <= k < cfg.Np => StageCost(cfg, traj[k + 1], Tsp, uFull[k], Before(uPrev, uFull, k)))
  }

  /** The objective J(u): the sum of the stage costs over the prediction horizon. */
  function TotalCost(cfg: Config, c: Thermal.Coefficients, uPrev: real, u: seq<real>, Tcur: real, Tsp: real, forecast: seq<real>): real
    requires 0 < |u| == cfg.Nc <= cfg.Np && |forecast| >= cfg.Np
  {
    Sum(Stages(cfg, c, uPrev, HoldLast(u, cfg.Np), Tcur, Tsp, forecast))
  }

  lemma StageCostNonNegative(cfg: Config, Tnext: real, Tsp: real, u: real, uBefore: real)
    requires cfg.wComfort >= 0.0 && cfg.wEnergy >= 0.0 && cfg.wSmooth >= 0.0
    ensures StageCost(cfg, Tnext, Tsp, u, uBefore) >= 0.0
  {
    SquareNonNegative(Tnext - Tsp);
    SquareNonNegative(u);
    SquareNonNegative(u - uBefore);
    MulNonNegative(cfg.wComfort, (Tnext - Tsp) * (Tnext - Tsp));
    MulNonNegative(cfg.wEnergy, u * u);
    MulNonNegative(cfg.wSmooth, (u - uBefore) * (u - uBefore));
  }

  /** With non-negative weights the objective is non-negative. */
  lemma {:induction false} CostNonNegative(cfg: Config, c: Thermal.Coefficients, uPrev: real, u: seq<real>, Tcur: real, Tsp: real, forecast: seq<real>)
    requires 0 < |u| == cfg.Nc <= cfg.Np && |forecast| >= cfg.Np
    requires cfg.wComfort >= 0.0 && cfg.wEnergy >= 0.0 && cfg.wSmooth >= 0.0
    ensures TotalCost(cfg, c, uPrev, u, Tcur, Tsp, forecast) >= 0.0
  {
    var uFull := HoldLast(u, cfg.Np);
    var traj := PredictedTemps(c, cfg.Np, Tcur, uFull, forecast);
    var s := Stages(cfg, c, uPrev, uFull, Tcur, Tsp, forecast);
    forall k | 0 <= k < |s|
      ensures s[k] >= 0.0
    {
      StageCostNonNegative(cfg, traj[k + 1], Tsp, uFull[k], Before(uPrev, uFull, k));
    }
    SumNonNegative(s);
  }

  /** `np.diff(u, prepend=u_prev)`: each input minus the one before it. */
  function Increments(uPrev: real, u: seq<real>): (du: seq<real>)
    ensures |du| == |u|
  {
    seq(|u|, k requires 0 <= k < |u| => u[k] - Before(uPrev, u, k))
  }

  /** `rate_constraint_pos`: du_max − Δu, feasible where non-negative. */
  function RateConstraintPos(duMax: real, uPrev: real, u: seq<real>): (g: seq<real>)
    ensures |g| == |u|
  {
    var du := Increments(uPrev, u);
    seq(|u|, k requires 0 <= k < |u| => duMax - du[k])
  }

  /** `rate_constraint_neg`: du_max + Δu, feasible where non-negative. */
  function RateConstraintNeg(duMax: real, uPrev: real, u: seq<real>): (g: seq<real>)
    ensures |g| == |u|
  {
    var du := Increments(uPrev, u);
    seq(|u|, k requires 0 <= k < |u| => duMax + du[k])
  }

  /** The box bounds: (u_min, u_max) for each of the Nc inputs. */
  function Bounds(cfg: Config): (b: seq<(real, real)>)
    ensures |b| == cfg.Nc
    ensures forall k :: 0 <= k < cfg.Nc ==> b[k] == (cfg.uMin, cfg.uMax)
  {
    Repeat((cfg.uMin, cfg.uMax), cfg.Nc)
  }

  /**
   * The two inequality constraints together hold exactly when no input
   * moves more than du_max from the one before it, starting from u_prev.
   */
  lemma RateConstraintsIff(duMax: real, uPrev: real, u: seq<real>)
    ensures (forall k :: 0 <= k < |u| ==>
               RateConstraintPos(duMax, uPrev, u)[k] >= 0.0 && RateConstraintNeg(duMax, uPrev, u)[k] >= 0.0)
        <==> (forall k :: 0 <= k < |u| ==> Abs(u[k] - Before(uPrev, u, k)) <= duMax)
  {
    var pos, neg := RateConstraintPos(duMax, uPrev, u), RateConstraintNeg(duMax, uPrev, u);
    forall k | 0 <= k < |u|
      ensures (pos[k] >= 0.0 && neg[k] >= 0.0) <==> Abs(u[k] - Before(uPrev, u, k)) <= duMax
    {
      assert Increments(uPrev, u)[k] == u[k] - Before(uPrev, u, k);
    }
  }

  /**
   * On success the controller reports the predicted trajectory: Np + 1
   * temperatures from the current one, each a model step under the held
   * input and the forecast.
   */
  lemma {:induction false} PredictionFollowsModel(c: Thermal.Coefficients, Np: nat, Tcur: real, u: seq<real>, forecast: seq<real>)
    requires 0 < |u| <= Np && |forecast| >= Np
    ensures var traj := PredictedTemps(c, Np, Tcur, HoldLast(u, Np), forecast);
      |traj| == Np + 1 && traj[0] == Tcur &&
      forall k :: 0 <= k < Np ==>
        traj[k + 1] == Thermal.SimulateStep(c, traj[k], u[if k < |u| then k else |u| - 1], forecast[k], 0.0)
  {
    var uFull := HoldLast(u, Np);
    Thermal.TrajectoryStep(c, Tcur, uFull[..Np], forecast[..Np], Repeat(0.0, Np));
  }

  /**
   * The result `compute_control` reports for an optimiser outcome, given
   * the forecast in use and the initial guess.
   */
  function Response(cfg: Config, c: Thermal.Coefficients, Tcur: real, fc: seq<real>, init: seq<real>, solver: SolverOutcome): (r: MPCResult)
    requires 0 < |init| == cfg.Nc <= cfg.Np && |fc| >= cfg.Np
    requires solver.Converged? ==> |solver.x| == cfg.Nc
    ensures r.success <==> solver.Converged?
    ensures solver.Converged? ==>
      r.uOptimal == solver.x && r.uFirst == solver.x[0] && r.cost == Finite(solver.fun) &&
      r.iterations == solver.nit && r.message == "Optimization converged" &&
      r.predictedTemps.Some? && |r.predictedTemps.value| == cfg.Np + 1 && r.predictedTemps.value[0] == Tcur
    ensures !solver.Converged? ==>
      r.uOptimal == init && r.uFirst == init[0] && r.cost == Infinity && r.predictedTemps == None
    ensures solver.NotConverged? ==> r.iterations == solver.nit && r.message == "Optimization failed: " + solver.message
    ensures solver.Threw? ==> r.iterations == 0 && r.message == "Exception: " + solver.message
  {
    match solver
    case Converged(x, fun, nit) =>
      MPCResult(x, x[0], Finite(fun), true, "Optimization converged", nit,
                Some(PredictedTemps(c, cfg.Np, Tcur, HoldLast(x, cfg.Np), fc)))
    case NotConverged(message, nit) =>
      MPCResult(init, init[0], Infinity, false, "Optimization failed: " + message, nit, None)
    case Threw(message) =>
      MPCResult(init, init[0], Infinity, false, "Exception: " + message, 0, None)
  }

  /** The controller's mutable state alongside its configuration and the shared thermal model. */
  const EMPTY_FORECAST_ERROR := "can't extend empty axis 0 using modes other than 'constant' or 'empty'"
  const EMPTY_GUESS_ERROR := "index 0 is out of bounds for axis 0 with size 0"

  class MPCController {
    const model: Thermal.ThermalModel
    var config: Config
    var uPrev: real
    var uSequencePrev: Option<seq<real>>

    ghost predicate Valid()
      reads this, model
    {
      model.Valid() &&
      config.Nc <= config.Np &&
      (uSequencePrev.Some? ==> 0 < |uSequencePrev.value| <= config.Np)
    }

    /** `MPCController(model, config)`: missing configuration takes the defaults; Nc is cut to Np. */
    constructor (model: Thermal.ThermalModel, config: Option<Config>)
      requires model.Valid()
      ensures Valid()
      ensures this.model == model
      ensures this.config == ClampHorizon(if config.Some? then config.value else DefaultConfig())
      ensures uPrev == 0.0 && uSequencePrev == None
    {
      this.model := model;
      var cfg := if config.Some? then config.value else DefaultConfig();
      if cfg.Nc > cfg.Np {
        cfg := cfg.(Nc := cfg.Np);
      }
      this.config := cfg;
      uPrev := 0.0;
      uSequencePrev := None;
    }

    /**
     * `_cost_function`: the objective the optimiser minimises, accumulated
     * step by step along the simulated trajectory.
     */
    method CostFunction(u: seq<real>, Tcur: real, Tsp: real, forecast: seq<real>) returns (cost: real)
      requires Valid()
      requires 0 < |u| == config.Nc && |forecast| >= config.Np
      ensures cost == TotalCost(config, model.Coeffs(), uPrev, u, Tcur, Tsp, forecast)
    {
      var c := model.Coeffs();
      var Np := config.Np;
      var uFull := HoldLast(u, Np);
      ghost var traj := PredictedTemps(c, Np, Tcur, uFull, forecast);
      ghost var stages := Stages(config, c, uPrev, uFull, Tcur, Tsp, forecast);
      PredictedSteps(c, Np, Tcur, uFull, forecast);
      var T := Tcur;
      cost := 0.0;
      for k := 0 to Np
        invariant T == traj[k]
        invariant cost == Sum(stages[..k])
      {
        var Tnext := Thermal.SimulateStep(c, T, uFull[k], forecast[k], 0.0);
        // comfort deviation after the step, energy, and change from the input before
        var stage := StageCost(config, Tnext, Tsp, uFull[k], Before(uPrev, uFull, k));
        assert stage == stages[k];
        SumAppend(stages, k);
        cost := cost + stage;
        T := Tnext;
      }
      assert stages[..Np] == stages;
    }

    /** `_simulate_trajectory`: the temperatures T(0..Np) under the held input sequence. */
    method SimulateTrajectory(Tcur: real, u: seq<real>, forecast: seq<real>) returns (temps: array<real>)
      requires Valid()
      requires 0 < |u| <= config.Np && |forecast| >= config.Np
      ensures fresh(temps)
      ensures temps[..] == PredictedTemps(model.Coeffs(), config.Np, Tcur, HoldLast(u, config.Np), forecast)
    {
      var c := model.Coeffs();
      var Np := config.Np;
      var uFull := HoldLast(u, Np);
      ghost var traj := PredictedTemps(c, Np, Tcur, uFull, forecast);
      PredictedSteps(c, Np, Tcur, uFull, forecast);
      temps := new real[Np + 1];
      temps[0] := Tcur;
      for k := 0 to Np
        invariant forall i :: 0 <= i <= k ==> temps[i] == traj[i]
      {
        temps[k + 1] := Thermal.SimulateStep(c, temps[k], uFull[k], forecast[k], 0.0);
      }
      assert temps[..] == traj;
    }

    /**
     * `compute_control` around the optimiser. The given last control
     * becomes u_prev; a short forecast is edge-padded (an empty one makes
     * the padding raise); the initial guess has Nc entries (with Nc = 0
     * reading its first entry raises). A converged solution is reported with
     * its first input, cost, iterations and predicted trajectory and is kept
     * for the next warm start; otherwise the initial guess is reported with
     * an infinite cost and the warm start is left as it was.
     */
    method ComputeControl(Tcur: real, Tsp: real, forecast: seq<real>, uLast: Option<real>, solver: SolverOutcome)
      returns (r: Result<MPCResult>)
      requires Valid()
      requires solver.Converged? ==> |solver.x| == config.Nc
      modifies this
      ensures Valid()
      ensures config == old(config)
      ensures uPrev == (if uLast.Some? then uLast.value else old(uPrev))
      ensures r.Failure? <==> config.Nc == 0 || |forecast| == 0
      ensures r.Failure? ==> uSequencePrev == old(uSequencePrev)
      ensures !solver.Converged? ==> uSequencePrev == old(uSequencePrev)
      ensures r.Success? ==>
        r.value == Response(config, model.Coeffs(), Tcur, ExtendForecast(forecast, config.Np),
                            InitialGuess(old(uSequencePrev), uPrev, config.Nc), solver)
      ensures r.Success? && solver.Converged? ==> uSequencePrev == Some(solver.x)
    {
      if uLast.Some? {
        uPrev := uLast.value;
      }
      if |forecast| < config.Np && |forecast| == 0 {
        return Failure(EMPTY_FORECAST_ERROR);
      }
      var uInit := InitialGuess(uSequencePrev, uPrev, config.Nc);
      if config.Nc == 0 {
        return Failure(EMPTY_GUESS_ERROR);
      }
      var fc := ExtendForecast(forecast, config.Np);
      var result := ApplySolverOutcome(Tcur, fc, uInit, solver);
      return Success(result);
    }

    /**
     * The `try` block of `compute_control`: a converged solution is
     * reported with its predicted trajectory and kept as the next warm
     * start; a failed or raising optimisation falls back to the initial
     * guess with an infinite cost.
     */
    method ApplySolverOutcome(Tcur: real, fc: seq<real>, uInit: seq<real>, solver: SolverOutcome) returns (result: MPCResult)
      requires Valid()
      requires 0 < |uInit| == config.Nc && |fc| >= config.Np
      requires solver.Converged? ==> |solver.x| == config.Nc
      modifies this
      ensures Valid()
      ensures config == old(config) && uPrev == old(uPrev)
      ensures !solver.Converged? ==> uSequencePrev == old(uSequencePrev)
      ensures result == Response(config, model.Coeffs(), Tcur, fc, uInit, solver)
      ensures solver.Converged? ==> uSequencePrev == Some(solver.x)
    {
      match solver {
        case Converged(x, fun, nit) =>
          var uFirst := x[0];
          var predicted := SimulateTrajectory(Tcur, x, fc);
          uSequencePrev := Some(x);
          result := MPCResult(x, uFirst, Finite(fun), true, "Optimization converged", nit, Some(predicted[..]));
        case NotConverged(message, nit) =>
          result := MPCResult(uInit, uInit[0], Infinity, false, "Optimization failed: " + message, nit, None);
        case Threw(message) =>
          result := MPCResult(uInit, uInit[0], Infinity, false, "Exception: " + message, 0, None);
      }
    }

    /** `reset`: forget the previous control and the warm start. */
    method Reset()
      requires Valid()
      modifies this
      ensures Valid()
      ensures uPrev == 0.0 && uSequencePrev == None
      ensures config == old(config)
    {
      uPrev := 0.0;
      uSequencePrev := None;
    }

    /** `set_weights`: only the supplied weights change. */
    method SetWeights(wComfort: Option<real>, wEnergy: Option<real>, wSmooth: Option<real>)
      requires Valid()
      modifies this
      ensures Valid()
      ensures config == old(config).(
        wComfort := if wComfort.Some? then wComfort.value else old(config.wComfort),
        wEnergy := if wEnergy.Some? then wEnergy.value else old(config.wEnergy),
        wSmooth := if wSmooth.Some? then wSmooth.value else old(config.wSmooth))
      ensures uPrev == old(uPrev) && uSequencePrev == old(uSequencePrev)
    {
      if wComfort.Some? {
        config := config.(wComfort := wComfort.value);
      }
      if wEnergy.Some? {
        config := config.(wEnergy := wEnergy.value);
      }
      if wSmooth.Some? {
        config := config.(wSmooth := wSmooth.value);
      }
    }
  }
}

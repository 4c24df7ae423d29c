/**
 * The diagnostic sensors' values: the model-status and control-quality
 * classifiers, the next predicted temperature and the prediction
 * trajectory with its time labels, and the MPC horizons in hours.
 *
 * Each sensor reads its input from Home Assistant's state machine; here
 * that input is a parameter (`None` for a missing entity or attribute).
 */
module Sensor {
  import opened Base
  import Thermal
  import MPC
  import Climate
  import Trainer
  import Validator

  // ---------------------------------------------------------------------
  // Model status
  // ---------------------------------------------------------------------

  const NOT_TRAINED := "not_trained"
  const DEGRADED := "degraded"
  const TRAINED := "trained"
  const LEARNING := "learning"

  /** The stored metrics of a model; a metric that is absent is `None`. */
  datatype StoredMetrics = StoredMetrics(rmse: Option<real>, rSquared: Option<real>)

  /** `metrics.get("rmse", 999)` */
  function StoredRmse(m: StoredMetrics): real
  {
    if m.rmse.Some? then m.rmse.value else 999.0
  }

  /** `metrics.get("r_squared", 0)` */
  function StoredRSquared(m: StoredMetrics): real
  {
    if m.rSquared.Some? then m.rSquared.value else 0.0
  }

  /**
   * `ModelStatusSensor.native_value`: "not_trained" without stored model
   * information; otherwise "degraded" when the RMSE exceeds 2.0 or R²
   * falls below 0.5, "trained" when the RMSE is below 1.0 and R² above
   * 0.7, and "learning" in between.
   */
  function ModelStatus(info: Option<StoredMetrics>): (r: string)
    ensures r == NOT_TRAINED <==> info.None?
    ensures info.Some? ==>
      (r == DEGRADED <==> StoredRmse(info.value) > 2.0 || StoredRSquared(info.value) < 0.5)
    ensures info.Some? ==>
      (r == TRAINED <==> StoredRmse(info.value) < 1.0 && StoredRSquared(info.value) > 0.7)
    ensures r in {NOT_TRAINED, DEGRADED, TRAINED, LEARNING}
  {
    if info.None? then NOT_TRAINED
    else
      var rmse := StoredRmse(info.value);
      var r2 := StoredRSquared(info.value);
      if rmse > 2.0 || r2 < 0.5 then DEGRADED
      else if rmse < 1.0 && r2 > 0.7 then TRAINED
      else LEARNING
  }

  /** The statuses of a stored model from worst to best. */
  function StatusRank(status: string): nat
  {
    if status == DEGRADED then 0 else if status == LEARNING then 1 else 2
  }

  /** Better metrics (a lower RMSE, a higher R²) never give a worse status. */
  lemma StatusMonotone(a: StoredMetrics, b: StoredMetrics)
    requires StoredRmse(b) <= StoredRmse(a) && StoredRSquared(b) >= StoredRSquared(a)
    ensures StatusRank(ModelStatus(Some(b))) >= StatusRank(ModelStatus(Some(a)))
  {
    if ModelStatus(Some(a)) == TRAINED {
      assert ModelStatus(Some(b)) == TRAINED;
    }
  }

  /** Stored information without metrics reads as RMSE 999 and R² 0: degraded. */
  lemma MissingMetricsDegraded()
    ensures ModelStatus(Some(StoredMetrics(None, None))) == DEGRADED
  {
  }

  /** A model the trainer reports as successful is never shown as degraded. */
  lemma TrainingSuccessNotDegraded(m: Trainer.TrainingMetrics)
    requires m.rmse < Trainer.SUCCESS_RMSE && m.rSquared > Trainer.SUCCESS_R_SQUARED
    ensures ModelStatus(Some(StoredMetrics(Some(m.rmse), Some(m.rSquared)))) in {TRAINED, LEARNING}
  {
  }

  /** A model shown as trained passes validation at the default thresholds. */
  lemma TrainedPassesValidation(m: Validator.ValidationMetrics)
    requires ModelStatus(Some(StoredMetrics(Some(m.rmse), Some(m.rSquared)))) == TRAINED
    ensures m.IsGood(Validator.RMSE_THRESHOLD_DEFAULT, Validator.R2_THRESHOLD_DEFAULT)
  {
  }

  // ---------------------------------------------------------------------
  // Control quality
  // ---------------------------------------------------------------------

  const UNKNOWN := "unknown"
  const EXCELLENT := "excellent"
  const GOOD := "good"
  const FAIR := "fair"
  const POOR := "poor"

  /**
   * `ControlQualitySensor.native_value` on the entity's
   * `control_quality_rmse` attribute: "unknown" without it, then
   * "excellent" below 0.5 °C, "good" below 1.0, "fair" below 2.0 and
   * "poor" from 2.0 on.
   */
  function ControlQuality(rmse: Option<real>): (r: string)
    ensures r == UNKNOWN <==> rmse.None?
    ensures rmse.Some? ==> (r == EXCELLENT <==> rmse.value < 0.5)
    ensures rmse.Some? ==> (r == POOR <==> rmse.value >= 2.0)
    ensures r in {UNKNOWN, EXCELLENT, GOOD, FAIR, POOR}
  {
    if rmse.None? then UNKNOWN
    else if rmse.value < 0.5 then EXCELLENT
    else if rmse.value < 1.0 then GOOD
    else if rmse.value < 2.0 then FAIR
    else POOR
  }

  /** The known qualities from worst to best. */
  function QualityRank(quality: string): nat
  {
    if quality == POOR then 0 else if quality == FAIR then 1 else if quality == GOOD then 2 else 3
  }

  /** A smaller tracking error never gives a worse quality. */
  lemma QualityMonotone(a: real, b: real)
    requires b <= a
    ensures QualityRank(ControlQuality(Some(b))) >= QualityRank(ControlQuality(Some(a)))
  {
  }

  /**
   * Read through the entity's attribute (published rounded, when there
   * is one), the quality is "unknown" exactly when fewer than six
   * temperature errors fall within the window.
   */
  lemma QualityUnknownWithFewErrors(errors: seq<(real, real)>, now: real, windowHours: real, libm: Libm,
                                    round: real -> real)
    ensures var rmse := Climate.ControlQualityRmse(errors, now, windowHours, libm);
      var attribute := if rmse.Some? then Some(round(rmse.value)) else None;
      ControlQuality(attribute) == UNKNOWN <==> |Climate.Recent(errors, now - windowHours * 3600.0)| < 6
  {
  }

  // ---------------------------------------------------------------------
  // Temperature prediction
  // ---------------------------------------------------------------------

  /** The time step the sensors assume: 600 s. */
  const SENSOR_DT: int := 600

  /**
   * `TemperaturePredictionSensor.native_value`: nothing without at least
   * two predicted temperatures, otherwise the one ten minutes ahead
   * (entry 0 is the current temperature).
   */
  function PredictionValue(predicted: Option<seq<real>>): (r: Option<real>)
    ensures r.Some? <==> predicted.Some? && |predicted.value| >= 2
    ensures r.Some? ==> r.value == predicted.value[1]
  {
    if predicted.None? || |predicted.value| < 2 then None else Some(predicted.value[1])
  }

  /**
   * For a converged MPC result with a horizon of at least one step, the
   * value shown is one model step from the current temperature under the
   * first optimal input and the first forecast outdoor temperature.
   */
  lemma PredictionIsOneModelStep(cfg: MPC.Config, c: Thermal.Coefficients, Tcur: real, fc: seq<real>,
                                 init: seq<real>, solver: MPC.SolverOutcome)
    requires 0 < |init| == cfg.Nc <= cfg.Np && |fc| >= cfg.Np
    requires solver.Converged? && |solver.x| == cfg.Nc
    ensures PredictionValue(MPC.Response(cfg, c, Tcur, fc, init, solver).predictedTemps) ==
      Some(Thermal.SimulateStep(c, Tcur, solver.x[0], fc[0], 0.0))
  {
    MPC.PredictionFollowsModel(c, cfg.Np, Tcur, solver.x, fc);
  }

  /** A failed optimisation carries no trajectory, so nothing is shown. */
  lemma NoPredictionAfterFailure(cfg: MPC.Config, c: Thermal.Coefficients, Tcur: real, fc: seq<real>,
                                 init: seq<real>, solver: MPC.SolverOutcome)
    requires 0 < |init| == cfg.Nc <= cfg.Np && |fc| >= cfg.Np
    requires !solver.Converged?
    ensures PredictionValue(MPC.Response(cfg, c, Tcur, fc, init, solver).predictedTemps).None?
  {
  }

  /** One trajectory entry: its time label and temperature. */
  datatype ForecastEntry = ForecastEntry(time: string, temperature: real)

  /** The trajectory attributes: the labelled entries and the horizon in minutes. */
  datatype PredictionAttributes = PredictionAttributes(forecast: seq<ForecastEntry>, horizonMinutes: int)

  /** The label of an entry m minutes ahead: "+{m}min". */
  function TimeLabel(minutes: nat): string
  {
    "+" + NatToString(minutes) + "min"
  }

  /**
   * `TemperaturePredictionSensor.extra_state_attributes`: nothing without
   * predicted temperatures; otherwise entry i is labelled 10·i minutes
   * ahead and carries the i-th temperature, and the horizon is ten
   * minutes per entry.
   */
  function PredictionAttributesOf(predicted: Option<seq<real>>): (r: Option<PredictionAttributes>)
    ensures r.Some? <==> predicted.Some? && |predicted.value| > 0
    ensures r.Some? ==>
      |r.value.forecast| == |predicted.value| && r.value.horizonMinutes == 10 * |predicted.value| &&
      forall i :: 0 <= i < |predicted.value| ==>
        r.value.forecast[i] == ForecastEntry(TimeLabel(10 * i), predicted.value[i])
  {
    if predicted.None? || |predicted.value| == 0 then None
    else
      var temps := predicted.value;
      var forecast := seq(|temps|, i requires 0 <= i < |temps| => ForecastEntry(TimeLabel(10 * i), temps[i]));
      Some(PredictionAttributes(forecast, |temps| * 10))
  }

  /** Reading "+{m}min" back gives m: different times get different labels. */
  lemma TimeLabelInjective(a: nat, b: nat)
    requires TimeLabel(a) == TimeLabel(b)
    ensures a == b
  {
    var sa, sb := NatToString(a), NatToString(b);
    assert |sa| == |sb|;
    assert sa == TimeLabel(a)[1..|sa| + 1];
    assert sb == TimeLabel(b)[1..|sb| + 1];
    NatToStringInjective(a, b);
  }

  /**
   * The entries' labels are pairwise distinct, and the last entry lies
   * one step (ten minutes) before the end of the horizon.
   */
  lemma ForecastLabels(predicted: seq<real>)
    requires |predicted| > 0
    ensures var a := PredictionAttributesOf(Some(predicted)).value;
      (forall i, j :: 0 <= i < j < |a.forecast| ==> a.forecast[i].time != a.forecast[j].time) &&
      a.forecast[|a.forecast| - 1].time == TimeLabel(a.horizonMinutes - 10)
  {
    var a := PredictionAttributesOf(Some(predicted)).value;
    forall i, j | 0 <= i < j < |a.forecast| ensures a.forecast[i].time != a.forecast[j].time {
      if a.forecast[i].time == a.forecast[j].time {
        TimeLabelInjective(10 * i, 10 * j);
      }
    }
  }

  // ---------------------------------------------------------------------
  // Horizons
  // ---------------------------------------------------------------------

  /**
   * The `horizon_hours` attribute of the prediction- and control-horizon
   * sensors, before rounding: N steps of 600 s in hours; nothing without
   * the horizon attribute.
   */
  function HorizonHours(steps: Option<int>): (r: Option<real>)
    ensures r.Some? <==> steps.Some?
    ensures r.Some? ==> 6.0 * r.value == steps.value as real
  {
    if steps.None? then None else Some((steps.value * SENSOR_DT) as real / 3600.0)
  }

  /**
   * The trajectory the controller reports holds Np + 1 temperatures, the
   * current one included, so the prediction sensor's horizon is one step
   * (ten minutes) longer than the prediction-horizon sensor's.
   */
  lemma TrajectoryHorizonOneStepLonger(cfg: MPC.Config, c: Thermal.Coefficients, Tcur: real, fc: seq<real>,
                                       init: seq<real>, solver: MPC.SolverOutcome)
    requires 0 < |init| == cfg.Nc <= cfg.Np && |fc| >= cfg.Np
    requires solver.Converged? && |solver.x| == cfg.Nc
    ensures var a := PredictionAttributesOf(MPC.Response(cfg, c, Tcur, fc, init, solver).predictedTemps);
      a.Some? && a.value.horizonMinutes as real == 60.0 * HorizonHours(Some(cfg.Np as int)).value + 10.0
  {
  }
}

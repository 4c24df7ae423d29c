/**
 * Validation of a thermal model against measured data: the metrics record
 * and its quality test, one-step and multi-step validation, and k-fold
 * cross-validation that re-fits the model on each training fold and scores
 * it on the held-out fold.
 */
module Validator {
  import opened Base
  import Thermal
  import Preprocessing
  import Trainer

  /** Default thresholds of `is_good`. */
  const RMSE_THRESHOLD_DEFAULT: real := 1.0
  const R2_THRESHOLD_DEFAULT: real := 0.7

  const ONE_STEP: string := "one_step"
  const MULTI_STEP: string := "multi_step"

  /** Smallest fold `cross_validate` accepts. */
  const MIN_FOLD_SIZE: int := 10

  /** NumPy's error for `a[0]` on an empty array. */
  const EMPTY_INDEX_ERROR: string := "index 0 is out of bounds for axis 0 with size 0"

  /** `ValidationMetrics`. */
  datatype ValidationMetrics = ValidationMetrics(mae: real, rmse: real, rSquared: real, maxError: real,
                                                 nSamples: nat, predictionType: string)
  {
    /** `is_good`: RMSE at most the threshold and R² at least the threshold. */
    predicate IsGood(rmseThreshold: real, r2Threshold: real)
    {
      rmse <= rmseThreshold && rSquared >= r2Threshold
    }
  }

  /**
   * Good under the default thresholds is stricter than the success test of
   * training (RMSE < 2 °C, R² > 0.5).
   */
  lemma DefaultGoodMeetsTrainingCriteria(m: ValidationMetrics)
    ensures m.IsGood(RMSE_THRESHOLD_DEFAULT, R2_THRESHOLD_DEFAULT) ==>
      m.rmse < Trainer.SUCCESS_RMSE && m.rSquared > Trainer.SUCCESS_R_SQUARED
  {
  }

  /** Loosening either threshold keeps a good model good. */
  lemma IsGoodMonotone(m: ValidationMetrics, rmse1: real, r21: real, rmse2: real, r22: real)
    requires rmse1 <= rmse2 && r22 <= r21
    ensures m.IsGood(rmse1, r21) ==> m.IsGood(rmse2, r22)
  {
  }

  function FromTraining(m: Trainer.TrainingMetrics, predictionType: string): ValidationMetrics
  {
    ValidationMetrics(m.mae, m.rmse, m.rSquared, m.maxError, m.nSamples, predictionType)
  }

  /**
   * `_calculate_metrics`: the same MAE, RMSE, maximum error and R² as the
   * trainer's `calculate_metrics`, tagged with the prediction type. Empty
   * arrays make `np.max` raise.
   */
  function CalculateMetrics(yTrue: seq<real>, yPred: seq<real>, predictionType: string, libm: Libm)
    : (r: Result<ValidationMetrics>)
    requires |yTrue| == |yPred|
    ensures r.Failure? <==> |yTrue| == 0
    ensures r.Success? ==>
      r.value.nSamples == |yTrue| && r.value.predictionType == predictionType &&
      r.value.mae >= 0.0 && r.value.maxError >= r.value.mae && r.value.rSquared <= 1.0
    ensures r.Success? && SqrtLawful(libm) ==>
      r.value.rmse >= 0.0 && r.value.rmse * r.value.rmse == Trainer.MeanSquaredError(yTrue, yPred)
  {
    var m := Trainer.CalculateMetrics(yTrue, yPred, libm);
    if m.Failure? then Failure(m.error) else Success(FromTraining(m.value, predictionType))
  }

  /** R² is 0 on data without spread, whatever the prediction. */
  lemma FlatDataHasZeroRSquared(yTrue: seq<real>, yPred: seq<real>, predictionType: string, libm: Libm)
    requires |yTrue| == |yPred| > 0
    requires forall i :: 0 <= i < |yTrue| ==> yTrue[i] == yTrue[0]
    ensures CalculateMetrics(yTrue, yPred, predictionType, libm).value.rSquared == 0.0
  {
    MeanOfConstant(yTrue, yTrue[0]);
    DeviationsFromConstant(yTrue, yTrue[0]);
  }

  /** The mean of a sequence of equal values is that value. */
  lemma MeanOfConstant(s: seq<real>, x: real)
    requires |s| > 0 && forall i :: 0 <= i < |s| ==> s[i] == x
    ensures Trainer.Mean(s) == x
  {
    SumOfConstant(s, x);
  }

  lemma {:induction false} SumOfConstant(s: seq<real>, x: real)
    requires forall i :: 0 <= i < |s| ==> s[i] == x
    ensures Sum(s) == |s| as real * x
    decreases |s|
  {
    if |s| > 0 {
      SumOfConstant(s[..|s| - 1], x);
    }
  }

  lemma {:induction false} DeviationsFromConstant(s: seq<real>, x: real)
    requires forall i :: 0 <= i < |s| ==> s[i] == x
    ensures Trainer.SumSquaredDeviations(s, x) == 0.0
    decreases |s|
  {
    if |s| > 0 {
      DeviationsFromConstant(s[..|s| - 1], x);
    }
  }

  // ---------------------------------------------------------------------
  // One-step and multi-step validation
  // ---------------------------------------------------------------------

  /** Preprocessed data whose three series hold only finite values. */
  predicate Finite(d: Preprocessing.TrainingData)
  {
    d.Validate() && Preprocessing.AllFinite(d.temperatures) &&
    Preprocessing.AllFinite(d.outdoorTemps) && Preprocessing.AllFinite(d.heatingPowers)
  }

  /**
   * The one-step-ahead predictions: y_pred[0] is the first measurement and
   * y_pred[i] is one model step from the MEASURED temperature at i − 1.
   */
  function OneStepPrediction(c: Thermal.Coefficients, T: seq<real>, Tout: seq<real>, P: seq<real>): (y: seq<real>)
    requires |T| >= 1 && |Tout| == |T| && |P| == |T|
    ensures |y| == |T|
  {
    seq(|T|, i requires 0 <= i < |T| =>
      if i == 0 then T[0] else Thermal.SimulateStep(c, T[i - 1], P[i - 1], Tout[i - 1], 0.0))
  }

  /**
   * Errors do not accumulate in one-step prediction: entry i is the
   * multi-step validation trajectory restarted from the measurement at
   * i − 1; in particular the first predictions of both kinds agree.
   */
  lemma OneStepRestartsFromMeasurement(c: Thermal.Coefficients, T: seq<real>, Tout: seq<real>, P: seq<real>, i: nat)
    requires |T| >= 1 && |Tout| == |T| && |P| == |T| && 1 <= i < |T|
    ensures OneStepPrediction(c, T, Tout, P)[i] ==
      Trainer.ValidationPrediction(c, T[i - 1..i + 1], Tout[i - 1..i + 1], P[i - 1..i + 1])[1]
    ensures i == 1 ==> OneStepPrediction(c, T, Tout, P)[1] == Trainer.ValidationPrediction(c, T, Tout, P)[1]
  {
    Trainer.ValidationPredictionSteps(c, T[i - 1..i + 1], Tout[i - 1..i + 1], P[i - 1..i + 1]);
    Trainer.ValidationPredictionSteps(c, T, Tout, P);
  }

  /** `_validate_one_step` on the values of the series. */
  function OneStepResult(c: Thermal.Coefficients, T: seq<real>, Tout: seq<real>, P: seq<real>, libm: Libm)
    : (r: Result<ValidationMetrics>)
    requires |Tout| == |T| && |P| == |T|
  {
    if |T| == 0 then Failure(EMPTY_INDEX_ERROR)
    else CalculateMetrics(T, OneStepPrediction(c, T, Tout, P), ONE_STEP, libm)
  }

  /**
   * `_validate_multi_step` on the values of the series: the trajectory
   * simulated from the first measurement with the recorded inputs, compared
   * with the measurements without the initial one.
   */
  function MultiStepResult(c: Thermal.Coefficients, T: seq<real>, Tout: seq<real>, P: seq<real>, libm: Libm)
    : (r: Result<ValidationMetrics>)
    requires |Tout| == |T| && |P| == |T|
  {
    if |T| == 0 then Failure(EMPTY_INDEX_ERROR)
    else
      var y := Trainer.ValidationPrediction(c, T, Tout, P);
      CalculateMetrics(T[1..], y[1..], MULTI_STEP, libm)
  }

  /**
   * `validate`: unknown prediction types raise ValueError; one-step
   * validation scores all n samples and fails only on empty data;
   * multi-step validation scores n − 1 samples and so needs two.
   */
  function Validation(c: Thermal.Coefficients, d: Preprocessing.TrainingData, predictionType: string, libm: Libm)
    : (r: Result<ValidationMetrics>)
    requires Finite(d)
    ensures predictionType != ONE_STEP && predictionType != MULTI_STEP ==>
      r == Failure("Invalid prediction_type: " + predictionType)
    ensures predictionType == ONE_STEP ==>
      (r.Success? <==> d.NSamples() >= 1) &&
      (r.Success? ==> r.value.nSamples == d.NSamples() && r.value.predictionType == ONE_STEP)
    ensures predictionType == MULTI_STEP ==>
      (r.Success? <==> d.NSamples() >= 2) &&
      (r.Success? ==> r.value.nSamples == d.NSamples() - 1 && r.value.predictionType == MULTI_STEP)
  {
    var T := Preprocessing.Reals(d.temperatures);
    var Tout := Preprocessing.Reals(d.outdoorTemps);
    var P := Preprocessing.Reals(d.heatingPowers);
    if predictionType != ONE_STEP && predictionType != MULTI_STEP then
      Failure("Invalid prediction_type: " + predictionType)
    else if predictionType == ONE_STEP then OneStepResult(c, T, Tout, P, libm)
    else MultiStepResult(c, T, Tout, P, libm)
  }

  /** Measurements that the model with coefficients c reproduces exactly, step by step. */
  predicate FollowsModel(c: Thermal.Coefficients, T: seq<real>, Tout: seq<real>, P: seq<real>)
    requires |Tout| == |T| && |P| == |T|
  {
    forall i :: 1 <= i < |T| ==> T[i] == Thermal.SimulateStep(c, T[i - 1], P[i - 1], Tout[i - 1], 0.0)
  }

  /** On data the model generated, the simulated trajectory is the data. */
  lemma {:induction false} TrajectoryReproducesData(c: Thermal.Coefficients, T: seq<real>, Tout: seq<real>, P: seq<real>, i: nat)
    requires |T| >= 1 && |Tout| == |T| && |P| == |T| && FollowsModel(c, T, Tout, P) && i < |T|
    ensures Trainer.ValidationPrediction(c, T, Tout, P)[i] == T[i]
    decreases i
  {
    Trainer.ValidationPredictionSteps(c, T, Tout, P);
    if i > 0 {
      TrajectoryReproducesData(c, T, Tout, P, i - 1);
    }
  }

  /** A prediction equal to the measurements has zero MAE and maximum error, and zero RMSE with a lawful sqrt. */
  lemma PerfectMetrics(yTrue: seq<real>, yPred: seq<real>, predictionType: string, libm: Libm)
    requires |yTrue| > 0 && yPred == yTrue
    ensures var m := CalculateMetrics(yTrue, yPred, predictionType, libm).value;
      m.mae == 0.0 && m.maxError == 0.0 && (SqrtLawful(libm) ==> m.rmse == 0.0)
  {
    Trainer.PerfectPrediction(yTrue, libm);
    var m := CalculateMetrics(yTrue, yPred, predictionType, libm).value;
    if SqrtLawful(libm) {
      assert Trainer.Sq(m.rmse) == 0.0;
      Trainer.SquaresOrdered(m.rmse, 0.0);
    }
  }

  /** On data the model generated, the multi-step validation trajectory is the data. */
  lemma TrajectoryIsData(c: Thermal.Coefficients, T: seq<real>, Tout: seq<real>, P: seq<real>)
    requires |T| >= 1 && |Tout| == |T| && |P| == |T| && FollowsModel(c, T, Tout, P)
    ensures Trainer.ValidationPrediction(c, T, Tout, P) == T
  {
    var y := Trainer.ValidationPrediction(c, T, Tout, P);
    forall i | 0 <= i < |T| ensures y[i] == T[i] {
      TrajectoryReproducesData(c, T, Tout, P, i);
    }
  }

  /**
   * Data generated by the validated model gives zero mean and maximum
   * error in one-step validation, and zero RMSE when sqrt is lawful.
   */
  lemma OneStepReproducesModelData(c: Thermal.Coefficients, T: seq<real>, Tout: seq<real>, P: seq<real>, libm: Libm)
    requires |Tout| == |T| && |P| == |T| && FollowsModel(c, T, Tout, P)
    ensures var r := OneStepResult(c, T, Tout, P, libm);
      r.Success? ==> r.value.mae == 0.0 && r.value.maxError == 0.0 && (SqrtLawful(libm) ==> r.value.rmse == 0.0)
  {
    if |T| >= 1 {
      assert OneStepPrediction(c, T, Tout, P) == T;
      PerfectMetrics(T, OneStepPrediction(c, T, Tout, P), ONE_STEP, libm);
    }
  }

  /** The same for multi-step validation, where errors could otherwise accumulate. */
  lemma MultiStepReproducesModelData(c: Thermal.Coefficients, T: seq<real>, Tout: seq<real>, P: seq<real>, libm: Libm)
    requires |Tout| == |T| && |P| == |T| && FollowsModel(c, T, Tout, P)
    ensures var r := MultiStepResult(c, T, Tout, P, libm);
      r.Success? ==> r.value.mae == 0.0 && r.value.maxError == 0.0 && (SqrtLawful(libm) ==> r.value.rmse == 0.0)
  {
    if |T| >= 2 {
      TrajectoryIsData(c, T, Tout, P);
      PerfectMetrics(T[1..], Trainer.ValidationPrediction(c, T, Tout, P)[1..], MULTI_STEP, libm);
    }
  }

  /** `ModelValidator`: validation of one thermal model. */
  class ModelValidator {
    const model: Thermal.ThermalModel

    constructor (model: Thermal.ThermalModel)
      ensures this.model == model
    {
      this.model := model;
    }

    /** `validate`, with the square root taken from the model's numeric library. */
    method Validate(d: Preprocessing.TrainingData, predictionType: string) returns (r: Result<ValidationMetrics>)
      requires model.Valid() && Finite(d)
      ensures r == Validation(model.Coeffs(), d, predictionType, model.libm)
    {
      if predictionType != ONE_STEP && predictionType != MULTI_STEP {
        return Failure("Invalid prediction_type: " + predictionType);
      }
      if predictionType == ONE_STEP {
        r := ValidateOneStep(d);
      } else {
        r := ValidateMultiStep(d);
      }
    }

    /** `_validate_one_step`: fill y_pred from the measured temperatures, then score it. */
    method ValidateOneStep(d: Preprocessing.TrainingData) returns (r: Result<ValidationMetrics>)
      requires model.Valid() && Finite(d)
      ensures r == OneStepResult(model.Coeffs(), Preprocessing.Reals(d.temperatures),
                                 Preprocessing.Reals(d.outdoorTemps), Preprocessing.Reals(d.heatingPowers), model.libm)
    {
      var n := d.NSamples();
      var T := Preprocessing.Reals(d.temperatures);
      var Tout := Preprocessing.Reals(d.outdoorTemps);
      var P := Preprocessing.Reals(d.heatingPowers);
      if n == 0 {
        return Failure(EMPTY_INDEX_ERROR);
      }
      var yPred := new real[n];
      yPred[0] := T[0];
      var i := 1;
      while i < n
        invariant 1 <= i <= n
        invariant forall j :: 0 <= j < i ==> yPred[j] == OneStepPrediction(model.Coeffs(), T, Tout, P)[j]
      {
        yPred[i] := Thermal.SimulateStep(model.Coeffs(), T[i - 1], P[i - 1], Tout[i - 1], 0.0);
        i := i + 1;
      }
      assert yPred[..] == OneStepPrediction(model.Coeffs(), T, Tout, P);
      r := CalculateMetrics(T, yPred[..], ONE_STEP, model.libm);
    }

    /** `_validate_multi_step`: predict from the first measurement, drop the initial value, score. */
    method ValidateMultiStep(d: Preprocessing.TrainingData) returns (r: Result<ValidationMetrics>)
      requires model.Valid() && Finite(d)
      ensures r == MultiStepResult(model.Coeffs(), Preprocessing.Reals(d.temperatures),
                                   Preprocessing.Reals(d.outdoorTemps), Preprocessing.Reals(d.heatingPowers), model.libm)
    {
      r := PredictAndScore(model, SeriesOf(d));
    }
  }

  // ---------------------------------------------------------------------
  // k-fold cross-validation
  // ---------------------------------------------------------------------

  /** Python's `list(range(a, b))`: empty when a ≥ b. */
  function Range(a: nat, b: int): (r: seq<nat>)
    ensures |r| == if a <= b then b - a else 0
    ensures forall i :: 0 <= i < |r| ==> r[i] == a + i
  {
    if a >= b then [] else seq(b - a, i requires 0 <= i => (a + i) as nat)
  }

  lemma RangeConcat(a: nat, b: nat, c: nat)
    requires a <= b <= c
    ensures Range(a, b) + Range(b, c) == Range(a, c)
  {
  }

  /** The shape `cross_validate` accepts: k ≥ 1 folds of n // k ≥ 10 samples. */
  predicate FoldLayout(n: nat, k: int, foldSize: nat)
  {
    k > 0 && foldSize == n / k && foldSize >= MIN_FOLD_SIZE
  }

  function TestStart(fold: nat, foldSize: nat): nat
  {
    fold * foldSize
  }

  /** The test fold ends one fold size later, except the last, which runs to n. */
  function TestEnd(fold: nat, k: int, foldSize: nat, n: nat): nat
  {
    if fold < k - 1 then fold * foldSize + foldSize else n
  }

  function TestIndices(fold: nat, k: int, foldSize: nat, n: nat): seq<nat>
  {
    Range(TestStart(fold, foldSize), TestEnd(fold, k, foldSize, n))
  }

  function TrainIndices(fold: nat, k: int, foldSize: nat, n: nat): seq<nat>
  {
    Range(0, TestStart(fold, foldSize)) + Range(TestEnd(fold, k, foldSize, n), n)
  }

  /** Every fold lies inside the data and holds at least a fold size of samples. */
  lemma FoldWithin(n: nat, k: int, foldSize: nat, fold: nat)
    requires FoldLayout(n, k, foldSize) && fold < k
    ensures TestStart(fold, foldSize) + foldSize <= TestEnd(fold, k, foldSize, n) <= n
  {
    assert k * foldSize + n % k == n;
    MulAtMost(fold + 1, k, foldSize);
    assert (fold + 1) * foldSize == fold * foldSize + foldSize;
  }

  lemma MulAtMost(a: nat, b: nat, c: nat)
    requires a <= b
    ensures a * c <= b * c
  {
  }

  /**
   * The index lists of one fold partition 0 … n−1: putting the test block
   * back at its start position in the training list gives 0 … n−1 in
   * order, so each index is in exactly one of them. The test block holds
   * at least n // k samples, and the last one ends at n.
   */
  lemma FoldsPartition(n: nat, k: int, foldSize: nat, fold: nat)
    requires FoldLayout(n, k, foldSize) && fold < k
    ensures var train, test := TrainIndices(fold, k, foldSize, n), TestIndices(fold, k, foldSize, n);
      var s := TestStart(fold, foldSize);
      s <= |train| && train[..s] + test + train[s..] == Range(0, n) &&
      |test| >= foldSize && (fold == k - 1 ==> TestEnd(fold, k, foldSize, n) == n) &&
      (forall i :: 0 <= i < n ==> (i in test <==> i !in train))
  {
    FoldWithin(n, k, foldSize, fold);
    var s, e := TestStart(fold, foldSize), TestEnd(fold, k, foldSize, n);
    var train, test := TrainIndices(fold, k, foldSize, n), TestIndices(fold, k, foldSize, n);
    assert train[..s] == Range(0, s) && train[s..] == Range(e, n);
    RangeConcat(0, s, e);
    RangeConcat(0, e, n);
    forall i | 0 <= i < n ensures i in test <==> i !in train {
      if s <= i < e {
        assert test[i - s] == i;
      } else if i < s {
        assert train[i] == i;
      } else {
        assert train[s + i - e] == i;
      }
    }
  }

  /** `array[indices]` / `[s[i] for i in indices]`. */
  function Pick(s: seq<real>, indices: seq<nat>): (r: seq<real>)
    requires forall j :: 0 <= j < |indices| ==> indices[j] < |s|
    ensures |r| == |indices| && forall j :: 0 <= j < |indices| ==> r[j] == s[indices[j]]
  {
    seq(|indices|, j requires 0 <= j < |indices| => s[indices[j]])
  }

  /** The series of a data set, as the validation loops read them. */
  datatype Series = Series(T: seq<real>, Tout: seq<real>, P: seq<real>, dt: real)
  {
    predicate WellFormed() { |Tout| == |T| && |P| == |T| }
  }

  function SeriesOf(d: Preprocessing.TrainingData): (s: Series)
    requires Finite(d)
    ensures s.WellFormed() && |s.T| == d.NSamples()
  {
    Series(Preprocessing.Reals(d.temperatures), Preprocessing.Reals(d.outdoorTemps),
           Preprocessing.Reals(d.heatingPowers), d.dt)
  }

  /** `TrainingData(...)` built from the samples at the given indices, at the same dt. */
  function Subset(s: Series, indices: seq<nat>): (r: Series)
    requires s.WellFormed() && forall j :: 0 <= j < |indices| ==> indices[j] < |s.T|
    ensures r.WellFormed() && |r.T| == |indices| && r.dt == s.dt
  {
    Series(Pick(s.T, indices), Pick(s.Tout, indices), Pick(s.P, indices), s.dt)
  }

  /** The training and test data of one fold. */
  function SplitFold(s: Series, k: int, foldSize: nat, fold: nat): (split: (Series, Series))
    requires s.WellFormed() && FoldLayout(|s.T|, k, foldSize) && fold < k
    ensures split.0.WellFormed() && split.1.WellFormed()
    ensures |split.1.T| == |TestIndices(fold, k, foldSize, |s.T|)| >= foldSize
  {
    FoldWithin(|s.T|, k, foldSize, fold);
    (Subset(s, TrainIndices(fold, k, foldSize, |s.T|)), Subset(s, TestIndices(fold, k, foldSize, |s.T|)))
  }

  /** The parameters fitted on a fold's training part and their multi-step metrics on its test part. */
  datatype FoldFit = FoldFit(parameters: Thermal.Parameters, metrics: ValidationMetrics)

  /**
   * Train a fresh estimator on the training data; when it yields no
   * parameters the fold is skipped, otherwise a model with the fitted
   * parameters is scored on the test data exactly as multi-step
   * validation scores it.
   */
  function TrainAndScore(train: Series, test: Series, libm: Libm): (r: Option<FoldFit>)
    requires train.WellFormed() && test.WellFormed() && |test.T| >= 2
    ensures r.Some? ==>
      r.value.parameters.Validate() && r.value.metrics.predictionType == MULTI_STEP &&
      r.value.metrics.nSamples == |test.T| - 1
  {
    var parameters := Trainer.RlsParameters(train.T, train.Tout, train.P, train.dt, libm);
    if parameters.None? then None
    else
      var c := Thermal.Discretize(parameters.value, test.dt, libm);
      Some(FoldFit(parameters.value, MultiStepResult(c, test.T, test.Tout, test.P, libm).value))
  }

  /** One pass of the fold loop. */
  function FoldOutcome(s: Series, k: int, foldSize: nat, fold: nat, libm: Libm): (r: Option<FoldFit>)
    requires s.WellFormed() && FoldLayout(|s.T|, k, foldSize) && fold < k
    ensures r.Some? ==> GoodFit(r.value, foldSize)
  {
    var split := SplitFold(s, k, foldSize, fold);
    TrainAndScore(split.0, split.1, libm)
  }

  /** What every fold that is not skipped yields: valid parameters and n // k − 1 or more scored samples. */
  predicate GoodFit(fit: FoldFit, foldSize: nat)
  {
    fit.parameters.Validate() && fit.metrics.predictionType == MULTI_STEP && fit.metrics.nSamples >= foldSize - 1
  }

  /** The outcomes of folds 0 … m−1. */
  function Outcomes(s: Series, k: int, foldSize: nat, m: nat, libm: Libm): (r: seq<Option<FoldFit>>)
    requires s.WellFormed() && FoldLayout(|s.T|, k, foldSize) && m <= k
    ensures |r| == m
  {
    seq(m, f requires 0 <= f < m => FoldOutcome(s, k, foldSize, f, libm))
  }

  /** The results that were not skipped, in order: the `continue` of the fold loop. */
  function Kept(outcomes: seq<Option<FoldFit>>): seq<FoldFit>
  {
    if |outcomes| == 0 then []
    else
      var last := outcomes[|outcomes| - 1];
      Kept(outcomes[..|outcomes| - 1]) + (if last.Some? then [last.value] else [])
  }

  /** Skipping keeps at most one result per fold, and only results that were there. */
  lemma {:induction false} KeptShape(outcomes: seq<Option<FoldFit>>, foldSize: nat)
    requires forall f :: 0 <= f < |outcomes| && outcomes[f].Some? ==> GoodFit(outcomes[f].value, foldSize)
    ensures |Kept(outcomes)| <= |outcomes|
    ensures forall j :: 0 <= j < |Kept(outcomes)| ==> GoodFit(Kept(outcomes)[j], foldSize)
    decreases |outcomes|
  {
    if |outcomes| > 0 {
      KeptShape(outcomes[..|outcomes| - 1], foldSize);
    }
  }

  /** Every fold that ran is kept: no fold skipped means one result per fold. */
  lemma {:induction false} KeptAll(outcomes: seq<Option<FoldFit>>)
    requires forall f :: 0 <= f < |outcomes| ==> outcomes[f].Some?
    ensures |Kept(outcomes)| == |outcomes|
    ensures forall j :: 0 <= j < |outcomes| ==> Kept(outcomes)[j] == outcomes[j].value
    decreases |outcomes|
  {
    if |outcomes| > 0 {
      KeptAll(outcomes[..|outcomes| - 1]);
    }
  }

  /** Mean and population standard deviation of a list, as `np.mean` and `np.std`. */
  datatype Summary = Summary(mean: real, std: real)

  /**
   * `np.mean`/`np.std` of an empty list are NaN, here None. Otherwise the
   * mean is the sum over the count and the standard deviation is
   * non-negative with its square the mean squared deviation from the mean
   * (the population deviation, NumPy's default `ddof=0`).
   */
  function Summarize(values: seq<real>, libm: Libm): (r: Option<Summary>)
    ensures r.Some? <==> |values| > 0
    ensures r.Some? ==> r.value.mean == Trainer.Mean(values)
    ensures r.Some? && SqrtLawful(libm) ==> r.value.std >= 0.0
    ensures r.Some? && SqrtLawful(libm) ==>
      r.value.std * r.value.std == Trainer.SumSquaredDeviations(values, r.value.mean) / |values| as real
  {
    if |values| == 0 then None
    else
      var mean := Trainer.Mean(values);
      var variance := Trainer.SumSquaredDeviations(values, mean) / |values| as real;
      Trainer.DeviationsNonNegative(values, mean);
      Some(Summary(mean, Sqrt(libm, variance)))
  }

  /** Values within [lo, hi] have their mean within [lo, hi]. */
  lemma SummaryMeanWithinRange(values: seq<real>, lo: real, hi: real, libm: Libm)
    requires |values| > 0 && forall i :: 0 <= i < |values| ==> lo <= values[i] <= hi
    ensures lo <= Summarize(values, libm).value.mean <= hi
  {
    MeanWithinRange(values, lo, hi);
  }

  lemma MeanWithinRange(values: seq<real>, lo: real, hi: real)
    requires |values| > 0 && forall i :: 0 <= i < |values| ==> lo <= values[i] <= hi
    ensures lo <= Trainer.Mean(values) <= hi
  {
    SumAtLeast(values, lo);
    Trainer.SumAtMost(values, hi);
    MeanOfBounds(Sum(values), |values|, lo, hi);
  }

  lemma MeanOfBounds(x: real, k: nat, lo: real, hi: real)
    ensures k > 0 && k as real * lo <= x <= k as real * hi ==> lo <= x / k as real <= hi
  {
  }

  lemma {:induction false} SumAtLeast(s: seq<real>, b: real)
    requires forall i :: 0 <= i < |s| ==> s[i] >= b
    ensures Sum(s) >= |s| as real * b
    decreases |s|
  {
    if |s| > 0 {
      SumAtLeast(s[..|s| - 1], b);
    }
  }

  /** Values that all agree have that value as mean and (with a lawful sqrt) no spread. */
  lemma SummaryOfEqualValues(values: seq<real>, x: real, libm: Libm)
    requires |values| > 0 && forall i :: 0 <= i < |values| ==> values[i] == x
    requires SqrtLawful(libm)
    ensures Summarize(values, libm) == Some(Summary(x, 0.0))
  {
    MeanOfConstant(values, x);
    DeviationsFromConstant(values, x);
    assert Trainer.SumSquaredDeviations(values, Trainer.Mean(values)) / |values| as real == 0.0;
    assert Trainer.Sq(Sqrt(libm, 0.0)) == 0.0;
    Trainer.SquaresOrdered(Sqrt(libm, 0.0), 0.0);
  }




  /** The statistics dictionary of `cross_validate`. */
  datatype CvStatistics = CvStatistics(rmse: Option<Summary>, rSquared: Option<Summary>,
                                       R: Option<Summary>, C: Option<Summary>, nFolds: nat)

  function Statistics(fits: seq<FoldFit>, libm: Libm): (st: CvStatistics)
    ensures st.nFolds == |fits|
    ensures st.rmse.Some? <==> |fits| > 0
  {
    CvStatistics(Summarize(seq(|fits|, j requires 0 <= j < |fits| => fits[j].metrics.rmse), libm),
                 Summarize(seq(|fits|, j requires 0 <= j < |fits| => fits[j].metrics.rSquared), libm),
                 Summarize(seq(|fits|, j requires 0 <= j < |fits| => fits[j].parameters.R), libm),
                 Summarize(seq(|fits|, j requires 0 <= j < |fits| => fits[j].parameters.C), libm),
                 |fits|)
  }

  function MetricsOf(fits: seq<FoldFit>): (ms: seq<ValidationMetrics>)
    ensures |ms| == |fits| && forall j :: 0 <= j < |fits| ==> ms[j] == fits[j].metrics
  {
    seq(|fits|, j requires 0 <= j < |fits| => fits[j].metrics)
  }

  /**
   * `cross_validate`: k = 0 divides by zero; a fold size n // k below 10
   * (always the case for negative k) raises ValueError; otherwise the
   * metrics of the folds that were not skipped, at most k of them, and
   * their statistics.
   */
  function CrossValidation(d: Preprocessing.TrainingData, k: int, libm: Libm)
    : (r: Result<(seq<ValidationMetrics>, CvStatistics)>)
    requires Finite(d)
    ensures r.Success? <==> k > 0 && d.NSamples() / k >= MIN_FOLD_SIZE
    ensures r.Success? ==>
      var (metrics, st) := r.value;
      |metrics| <= k && st.nFolds == |metrics| &&
      forall j :: 0 <= j < |metrics| ==>
        metrics[j].predictionType == MULTI_STEP && metrics[j].nSamples >= d.NSamples() / k - 1
  {
    var n := d.NSamples();
    if k == 0 then Failure("integer division or modulo by zero")
    else if k < 0 || n / k < MIN_FOLD_SIZE then
      Failure("Insufficient data for " + IntToString(k) + "-fold cross-validation")
    else
      var outcomes := Outcomes(SeriesOf(d), k, n / k, k, libm);
      KeptShape(outcomes, n / k);
      var fits := Kept(outcomes);
      Success((MetricsOf(fits), Statistics(fits, libm)))
  }

  /** The fold loop of `cross_validate`. */
  method CrossValidate(d: Preprocessing.TrainingData, k: int, libm: Libm)
    returns (r: Result<(seq<ValidationMetrics>, CvStatistics)>)
    requires Finite(d)
    ensures r == CrossValidation(d, k, libm)
  {
    var n := d.NSamples();
    if k == 0 {
      return Failure("integer division or modulo by zero");
    }
    if k < 0 || n / k < MIN_FOLD_SIZE {
      return Failure("Insufficient data for " + IntToString(k) + "-fold cross-validation");
    }
    var foldSize := n / k;
    var s := SeriesOf(d);
    var fits: seq<FoldFit> := [];
    var fold := 0;
    while fold < k
      invariant 0 <= fold <= k
      invariant fits == Kept(Outcomes(s, k, foldSize, fold, libm))
    {
      var outcome := RunFold(s, k, foldSize, fold, libm);
      assert Outcomes(s, k, foldSize, fold + 1, libm)[..fold] == Outcomes(s, k, foldSize, fold, libm);
      if outcome.Some? {
        fits := fits + [outcome.value];
      }
      fold := fold + 1;
    }
    r := Success((MetricsOf(fits), Statistics(fits, libm)));
  }

  /** One fold: split the data, then train and score. */
  method RunFold(s: Series, k: int, foldSize: nat, fold: nat, libm: Libm) returns (r: Option<FoldFit>)
    requires s.WellFormed() && FoldLayout(|s.T|, k, foldSize) && fold < k
    ensures r == FoldOutcome(s, k, foldSize, fold, libm)
  {
    var split := SplitFold(s, k, foldSize, fold);
    r := TrainAndTest(split.0, split.1, libm);
  }

  /** Train a fresh estimator, then predict over the test data with a new model and score. */
  method TrainAndTest(train: Series, test: Series, libm: Libm) returns (r: Option<FoldFit>)
    requires train.WellFormed() && test.WellFormed() && |test.T| >= 2
    ensures r == TrainAndScore(train, test, libm)
  {
    var parameters := Trainer.EstimateParameters(train.T, train.Tout, train.P, train.dt, libm);
    if parameters.None? {
      return None;
    }
    var model := new Thermal.ThermalModel(parameters.value, test.dt, libm);
    var metrics := PredictAndScore(model, test);
    r := Some(FoldFit(parameters.value, metrics.value));
  }

  /**
   * Predict from the first measurement with the recorded inputs, drop the
   * initial value and score against the remaining measurements.
   */
  method PredictAndScore(model: Thermal.ThermalModel, s: Series) returns (r: Result<ValidationMetrics>)
    requires model.Valid() && s.WellFormed()
    ensures r == MultiStepResult(model.Coeffs(), s.T, s.Tout, s.P, model.libm)
  {
    var n := |s.T|;
    if n == 0 {
      return Failure(EMPTY_INDEX_ERROR);
    }
    var pred := model.Predict(s.T[0], s.P[..n - 1], s.Tout[..n - 1], None);
    var y := pred.value;
    r := CalculateMetrics(s.T[1..], y[1..], MULTI_STEP, model.libm);
  }
}

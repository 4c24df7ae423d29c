/**
 * Training of the thermal model from recorded history: the error metrics,
 * the alignment of the recorded series on common timestamps, and the
 * pipeline that preprocesses them, runs the RLS estimator over them and
 * scores the resulting model on its own training data.
 */
module Trainer {
  import opened Base
  import Thermal
  import Estimator
  import Preprocessing

  const DEFAULT_TRAINING_DAYS: nat := 30
  const DEFAULT_MIN_SAMPLES: int := 100
  /** Training succeeds below this RMSE [°C] ... */
  const SUCCESS_RMSE: real := 2.0
  /** ... and above this R². */
  const SUCCESS_R_SQUARED: real := 0.5

  // Messages of the training result and errors
  const FETCH_FAILED := "Failed to fetch history: "
  const NO_HISTORY := "No history data found for "
  const INSUFFICIENT_ALIGNED := "Insufficient aligned data: "
  const INSUFFICIENT_PREPROCESSED := "Insufficient data after preprocessing: "
  const RLS_FAILED := "RLS failed to converge to valid parameters"
  const TRAINING_SUCCESSFUL := "Training successful"
  const METRICS_POOR := "Training completed but metrics poor"
  const EMPTY_REDUCTION := "zero-size array to reduction operation maximum which has no identity"

  datatype TrainingMetrics = TrainingMetrics(rmse: real, mae: real, maxError: real, rSquared: real, nSamples: nat)

  /** `y_true − y_pred`. */
  function Errors(yTrue: seq<real>, yPred: seq<real>): (e: seq<real>)
    requires |yTrue| == |yPred|
    ensures |e| == |yTrue| && forall i :: 0 <= i < |e| ==> e[i] == yTrue[i] - yPred[i]
  {
    seq(|yTrue|, i requires 0 <= i < |yTrue| => yTrue[i] - yPred[i])
  }

  /** `np.abs`. */
  function AbsAll(s: seq<real>): (r: seq<real>)
    ensures |r| == |s| && forall i :: 0 <= i < |s| ==> r[i] == Abs(s[i])
  {
    seq(|s|, i requires 0 <= i < |s| => Abs(s[i]))
  }

  /** x², kept as a named term so that sums of squares stay linear in it. */
  function Sq(x: real): real
  {
    x * x
  }

  /** `np.sum((s − m) ** 2)`; with m = 0 it is the sum of squares. */
  function SumSquaredDeviations(s: seq<real>, m: real): real
    decreases |s|
  {
    if |s| == 0 then 0.0 else SumSquaredDeviations(s[..|s| - 1], m) + Sq(s[|s| - 1] - m)
  }

  /** `np.mean` of a non-empty array. */
  function Mean(s: seq<real>): real
    requires |s| > 0
  {
    Sum(s) / |s| as real
  }

  /** R² from the residual and total sums of squares: 0 when the data has no spread. */
  function RSquared(ssRes: real, ssTot: real): real
  {
    if ssTot > 0.0 then 1.0 - ssRes / ssTot else 0.0
  }

  /** The mean squared error, whose square root is the RMSE. */
  function MeanSquaredError(yTrue: seq<real>, yPred: seq<real>): real
    requires |yTrue| == |yPred| > 0
  {
    SumSquaredDeviations(Errors(yTrue, yPred), 0.0) / |yTrue| as real
  }

  /**
   * `calculate_metrics`: MAE, RMSE, maximum absolute error and R² of the
   * errors `y_true − y_pred`. Empty arrays make `np.max` raise.
   */
  function CalculateMetrics(yTrue: seq<real>, yPred: seq<real>, libm: Libm): (r: Result<TrainingMetrics>)
    requires |yTrue| == |yPred|
    ensures r.Failure? <==> |yTrue| == 0
    ensures r.Success? ==> r.value.nSamples == |yTrue| && r.value.mae >= 0.0 && r.value.maxError >= r.value.mae
    ensures r.Success? && SqrtLawful(libm) ==>
      r.value.rmse >= 0.0 && r.value.rmse * r.value.rmse == MeanSquaredError(yTrue, yPred)
    ensures r.Success? ==> r.value.rSquared <= 1.0
  {
    if |yTrue| == 0 then Failure(EMPTY_REDUCTION)
    else
      var errors := Errors(yTrue, yPred);
      var ssRes := SumSquaredDeviations(errors, 0.0);
      var ssTot := SumSquaredDeviations(yTrue, Mean(yTrue));
      var mse := ssRes / |yTrue| as real;
      MeanWithinBounds(AbsAll(errors));
      DeviationsNonNegative(errors, 0.0);
      RSquaredAtMostOne(ssRes, ssTot);
      Success(TrainingMetrics(Sqrt(libm, mse), Mean(AbsAll(errors)), SeqMax(AbsAll(errors)), RSquared(ssRes, ssTot), |yTrue|))
  }

  lemma RSquaredAtMostOne(ssRes: real, ssTot: real)
    requires ssRes >= 0.0
    ensures RSquared(ssRes, ssTot) <= 1.0
  {
    if ssTot > 0.0 {
      assert ssRes / ssTot >= 0.0;
    }
  }

  /** A sum of terms each at most b is at most |s|·b. */
  lemma {:induction false} SumAtMost(s: seq<real>, b: real)
    requires forall i :: 0 <= i < |s| ==> s[i] <= b
    ensures Sum(s) <= |s| as real * b
    decreases |s|
  {
    if |s| > 0 {
      SumAtMost(s[..|s| - 1], b);
    }
  }

  lemma DivideBound(x: real, n: real, b: real)
    requires n > 0.0 && x <= n * b
    ensures x / n <= b
  {
  }

  /** The mean of non-negative values is non-negative and at most their maximum. */
  lemma MeanWithinBounds(s: seq<real>)
    requires |s| > 0 && forall i :: 0 <= i < |s| ==> s[i] >= 0.0
    ensures 0.0 <= Mean(s) <= SeqMax(s)
  {
    SumNonNegative(s);
    SeqMaxBounds(s);
    SumAtMost(s, SeqMax(s));
    DivideBound(Sum(s), |s| as real, SeqMax(s));
  }

  lemma {:induction false} DeviationsNonNegative(s: seq<real>, m: real)
    ensures SumSquaredDeviations(s, m) >= 0.0
    decreases |s|
  {
    if |s| > 0 {
      DeviationsNonNegative(s[..|s| - 1], m);
      SquareNonNegative(s[|s| - 1] - m);
    }
  }

  /** (Σsᵢ)² ≤ |s|·Σsᵢ², the Cauchy–Schwarz inequality against the all-ones vector. */
  lemma {:induction false} SquareOfSumAtMost(s: seq<real>)
    ensures Sq(Sum(s)) <= |s| as real * SumSquaredDeviations(s, 0.0)
    decreases |s|
  {
    if |s| > 0 {
      var k := |s| - 1;
      SquareOfSumAtMost(s[..k]);
      DeviationsNonNegative(s[..k], 0.0);
      CauchyStep(Sum(s[..k]), SumSquaredDeviations(s[..k], 0.0), |s[..k]| as real, s[k],
                 Sum(s), SumSquaredDeviations(s, 0.0), |s| as real);
    }
  }

  /** One inductive step of SquareOfSumAtMost, over plain numbers. */
  lemma CauchyStep(sum: real, sq: real, k: real, x: real, sum': real, sq': real, n: real)
    requires k >= 0.0 && sq >= 0.0 && Sq(sum) <= k * sq && (k == 0.0 ==> sum == 0.0)
    requires sum' == sum + x && sq' == sq + Sq(x - 0.0) && n == k + 1.0
    ensures Sq(sum') <= n * sq'
  {
    CrossTerm(sum, sq, k, x);
    assert Sq(sum') == Sq(sum) + 2.0 * sum * x + Sq(x);
    assert n * sq' == k * sq + sq + k * Sq(x) + Sq(x);
  }

  /** 2·S·x ≤ Q + k·x² whenever S² ≤ k·Q, from (S − k·x)² ≥ 0. */
  lemma CrossTerm(sum: real, sq: real, k: real, x: real)
    requires k >= 0.0 && sq >= 0.0 && Sq(sum) <= k * sq && (k == 0.0 ==> sum == 0.0)
    ensures 2.0 * sum * x <= sq + k * Sq(x)
  {
    if k != 0.0 {
      SquareNonNegative(sum - k * x);
      assert Sq(sum - k * x) == Sq(sum) - k * (2.0 * sum * x) + k * (k * Sq(x));
      CancelPositive(k, 2.0 * sum * x, sq + k * Sq(x));
    }
  }

  lemma CancelPositive(k: real, a: real, b: real)
    requires k > 0.0 && k * a <= k * b
    ensures a <= b
  {
  }

  /**
   * Dividing S² ≤ n·Q by n²: (S/n)² ≤ Q/n. Stated as an implication so that
   * a caller's only obligation is the conclusion it wants.
   */
  lemma ScaleDown(sum: real, sq: real, n: real)
    ensures n > 0.0 && Sq(sum) <= n * sq ==> Sq(sum / n) <= sq / n
  {
    if n > 0.0 && Sq(sum) <= n * sq {
      var q := sum / n;
      assert sum == q * n;
      assert Sq(sum) == n * (n * Sq(q));
      CancelPositive(n, n * Sq(q), sq);
      assert Sq(q) == (n * Sq(q)) / n;
    }
  }

  /** x ≤ n·b gives x/n ≤ b for n > 0, in the same implication form. */
  lemma DivideAtMost(x: real, n: real, b: real)
    ensures n > 0.0 && x <= n * b ==> x / n <= b
  {
  }

  /** (Σaᵢ/n)² ≤ Σaᵢ²/n: the square of a mean is at most the mean of the squares. */
  lemma MeanSquaredAtMostMeanSquare(a: seq<real>)
    requires |a| > 0
    ensures Sq(Mean(a)) <= SumSquaredDeviations(a, 0.0) / |a| as real
  {
    var sum, sq, n := Sum(a), SumSquaredDeviations(a, 0.0), |a| as real;
    SquareOfSumAtMost(a);
    ScaleDown(sum, sq, n);
  }

  /** Squaring forgets the sign: Σ|eᵢ|² = Σeᵢ². */
  lemma {:induction false} SquaresOfAbs(e: seq<real>)
    ensures SumSquaredDeviations(AbsAll(e), 0.0) == SumSquaredDeviations(e, 0.0)
    decreases |e|
  {
    if |e| > 0 {
      var k := |e| - 1;
      SquaresOfAbs(e[..k]);
      assert AbsAll(e)[..k] == AbsAll(e[..k]);
      AbsSquare(e[k]);
    }
  }

  lemma AbsSquare(x: real)
    ensures Sq(Abs(x) - 0.0) == Sq(x - 0.0)
  {
  }

  /** A sum of squares each at most b is at most |s|·b. */
  lemma {:induction false} SquaresAtMost(s: seq<real>, b: real)
    requires forall i :: 0 <= i < |s| ==> Sq(s[i] - 0.0) <= b
    ensures SumSquaredDeviations(s, 0.0) <= |s| as real * b
    decreases |s|
  {
    if |s| > 0 {
      SquaresAtMost(s[..|s| - 1], b);
    }
  }

  /** The mean of squares each at most b is at most b. */
  lemma MeanSquareAtMost(s: seq<real>, b: real)
    requires |s| > 0 && forall i :: 0 <= i < |s| ==> Sq(s[i] - 0.0) <= b
    ensures SumSquaredDeviations(s, 0.0) / |s| as real <= b
  {
    var x, n := SumSquaredDeviations(s, 0.0), |s| as real;
    SquaresAtMost(s, b);
    DivideAtMost(x, n, b);
  }

  lemma SquareMonotone(x: real, y: real)
    requires 0.0 <= x <= y
    ensures Sq(x - 0.0) <= Sq(y)
  {
    MulNonNegative(y - x, y + x);
  }

  /** Every squared error is at most the squared maximum absolute error. */
  lemma SquaresBelowMaxSquared(e: seq<real>)
    requires |e| > 0
    ensures forall i :: 0 <= i < |e| ==> Sq(e[i] - 0.0) <= Sq(SeqMax(AbsAll(e)))
  {
    var a := AbsAll(e);
    SeqMaxBounds(a);
    forall i | 0 <= i < |e| ensures Sq(e[i] - 0.0) <= Sq(SeqMax(a)) {
      SquareMonotone(a[i], SeqMax(a));
      AbsSquare(e[i]);
    }
  }

  /**
   * The error magnitudes are ordered in squared form: MAE² ≤ MSE ≤ max_error².
   */
  lemma MetricsOrdered(yTrue: seq<real>, yPred: seq<real>, libm: Libm)
    requires |yTrue| == |yPred| > 0
    ensures var m := CalculateMetrics(yTrue, yPred, libm).value;
      Sq(m.mae) <= MeanSquaredError(yTrue, yPred) <= Sq(m.maxError)
  {
    var e := Errors(yTrue, yPred);
    var a := AbsAll(e);
    MeanSquaredAtMostMeanSquare(a);
    SquaresOfAbs(e);
    SquaresBelowMaxSquared(e);
    MeanSquareAtMost(e, Sq(SeqMax(a)));
  }

  /** With a lawful square root the ordering holds for the metrics themselves: MAE ≤ RMSE ≤ max_error. */
  lemma MetricsOrderedWithSqrt(yTrue: seq<real>, yPred: seq<real>, libm: Libm)
    requires |yTrue| == |yPred| > 0 && SqrtLawful(libm)
    ensures var m := CalculateMetrics(yTrue, yPred, libm).value;
      m.mae <= m.rmse <= m.maxError
  {
    var m := CalculateMetrics(yTrue, yPred, libm).value;
    MetricsOrdered(yTrue, yPred, libm);
    assert Sq(m.rmse) == MeanSquaredError(yTrue, yPred);
    SquaresOrdered(m.mae, m.rmse);
    SquaresOrdered(m.rmse, m.maxError);
  }

  /** For non-negative numbers, comparing squares compares the numbers. */
  lemma SquaresOrdered(x: real, y: real)
    requires x >= 0.0 && y >= 0.0 && Sq(x) <= Sq(y)
    ensures x <= y
  {
    if x > y {
      SquareIncreasing(y, x);
      assert false;
    }
  }

  lemma SquareIncreasing(x: real, y: real)
    requires 0.0 <= x < y
    ensures Sq(x) < Sq(y)
  {
    var d, t := y - x, y + x;
    MulPositive(d, t);
    DifferenceOfSquares(y, x);
    assert Sq(y) - Sq(x) == d * t;
  }

  lemma DifferenceOfSquares(x: real, y: real)
    ensures (x - y) * (x + y) == Sq(x) - Sq(y)
  {
  }

  /**
   * The maximum error is the largest absolute difference between a
   * measured and a predicted value, and it is attained at some sample.
   */
  lemma MaxErrorIsLargestDifference(yTrue: seq<real>, yPred: seq<real>, libm: Libm)
    requires |yTrue| == |yPred| > 0
    ensures var maxError := CalculateMetrics(yTrue, yPred, libm).value.maxError;
      (forall i :: 0 <= i < |yTrue| ==> Abs(yTrue[i] - yPred[i]) <= maxError) &&
      (exists i :: 0 <= i < |yTrue| && Abs(yTrue[i] - yPred[i]) == maxError)
  {
    var a := AbsAll(Errors(yTrue, yPred));
    SeqMaxBounds(a);
    var j :| 0 <= j < |a| && a[j] == SeqMax(a);
    assert Abs(yTrue[j] - yPred[j]) == SeqMax(a);
  }

  /** A perfect prediction has zero MAE, MSE and maximum error, and R² = 1 unless the data is flat. */
  lemma PerfectPrediction(yTrue: seq<real>, libm: Libm)
    requires |yTrue| > 0
    ensures var m := CalculateMetrics(yTrue, yTrue, libm).value;
      m.mae == 0.0 && m.maxError == 0.0 && MeanSquaredError(yTrue, yTrue) == 0.0 &&
      m.rSquared == (if SumSquaredDeviations(yTrue, Mean(yTrue)) > 0.0 then 1.0 else 0.0)
  {
    var e := Errors(yTrue, yTrue);
    ZeroSum(AbsAll(e));
    ZeroSquares(e);
    SeqMaxBounds(AbsAll(e));
  }

  lemma {:induction false} ZeroSquares(s: seq<real>)
    requires forall i :: 0 <= i < |s| ==> s[i] == 0.0
    ensures SumSquaredDeviations(s, 0.0) == 0.0
    decreases |s|
  {
    if |s| > 0 {
      ZeroSquares(s[..|s| - 1]);
    }
  }

  lemma {:induction false} ZeroSum(s: seq<real>)
    requires forall i :: 0 <= i < |s| ==> s[i] == 0.0
    ensures Sum(s) == 0.0
    decreases |s|
  {
    if |s| > 0 {
      ZeroSum(s[..|s| - 1]);
    }
  }

  // ---------------------------------------------------------------------
  // Alignment of the recorded series
  // ---------------------------------------------------------------------

  /** A recorded history: (timestamp [s], value) pairs in recording order. */
  type History = seq<(real, Preprocessing.Float)>

  /** `{t: v for t, v in history}`: a later sample at the same timestamp overwrites an earlier one. */
  function ToDict(h: History): map<real, Preprocessing.Float>
    decreases |h|
  {
    if |h| == 0 then map[] else ToDict(h[..|h| - 1])[h[|h| - 1].0 := h[|h| - 1].1]
  }

  /** The dictionary has exactly the recorded timestamps as keys. */
  lemma {:induction false} ToDictKeys(h: History)
    ensures forall t :: t in ToDict(h) <==> exists i :: 0 <= i < |h| && h[i].0 == t
    decreases |h|
  {
    if |h| > 0 {
      var n := |h| - 1;
      ToDictKeys(h[..n]);
      forall t | t in ToDict(h) ensures exists i :: 0 <= i < |h| && h[i].0 == t {
        if t != h[n].0 {
          assert t in ToDict(h[..n]);
          var i :| 0 <= i < |h[..n]| && h[..n][i].0 == t;
          assert h[i].0 == t;
        }
      }
      forall t | (exists i :: 0 <= i < |h| && h[i].0 == t) ensures t in ToDict(h) {
        var i :| 0 <= i < |h| && h[i].0 == t;
        if i < n {
          assert h[..n][i].0 == t;
        }
      }
    }
  }

  /** Each timestamp holds the last value recorded for it. */
  lemma {:induction false} ToDictLastWins(h: History)
    ensures forall i :: 0 <= i < |h| && (forall j :: i < j < |h| ==> h[j].0 != h[i].0) ==>
      h[i].0 in ToDict(h) && ToDict(h)[h[i].0] == h[i].1
    decreases |h|
  {
    if |h| > 0 {
      var n := |h| - 1;
      ToDictLastWins(h[..n]);
      ToDictKeys(h[..n]);
      forall i | 0 <= i < n && (forall j :: i < j < |h| ==> h[j].0 != h[i].0)
        ensures ToDict(h)[h[i].0] == h[i].1
      {
        assert h[..n][i] == h[i];
        forall j | i < j < n ensures h[..n][j].0 != h[..n][i].0 {
          assert h[..n][j] == h[j];
        }
      }
    }
  }

  predicate Increasing(s: seq<real>)
  {
    forall i, j :: 0 <= i < j < |s| ==> s[i] < s[j]
  }

  /** Insertion of x into an increasing sequence, unless it is already there. */
  function Insert(x: real, s: seq<real>): seq<real>
    decreases |s|
  {
    if |s| == 0 then [x]
    else if x < s[0] then [x] + s
    else if x == s[0] then s
    else [s[0]] + Insert(x, s[1..])
  }

  lemma {:induction false} InsertIncreasing(x: real, s: seq<real>)
    requires Increasing(s)
    ensures Increasing(Insert(x, s))
    ensures forall y :: y in Insert(x, s) <==> y == x || y in s
    ensures Insert(x, s)[0] == x || Insert(x, s)[0] == s[0]
    decreases |s|
  {
    if |s| > 0 && x > s[0] {
      var t := Insert(x, s[1..]);
      InsertIncreasing(x, s[1..]);
      assert Insert(x, s) == [s[0]] + t;
      assert s == [s[0]] + s[1..];
      assert s[0] < t[0];
      forall i, j | 0 <= i < j < |t| + 1 ensures ([s[0]] + t)[i] < ([s[0]] + t)[j] {
        if i == 0 && j > 1 {
          assert t[0] < t[j - 1];
        }
      }
    }
  }

  /** `sorted(set(s))`: the distinct elements of s in increasing order. */
  function SortedDistinct(s: seq<real>): seq<real>
    decreases |s|
  {
    if |s| == 0 then [] else Insert(s[|s| - 1], SortedDistinct(s[..|s| - 1]))
  }

  lemma {:induction false} SortedDistinctSpec(s: seq<real>)
    ensures Increasing(SortedDistinct(s))
    ensures forall y :: y in SortedDistinct(s) <==> y in s
    decreases |s|
  {
    if |s| > 0 {
      var n := |s| - 1;
      SortedDistinctSpec(s[..n]);
      InsertIncreasing(s[n], SortedDistinct(s[..n]));
      assert s == s[..n] + [s[n]];
    }
  }

  /** The room timestamps, in recording order, that the other dictionaries also hold. */
  function SharedTimes(room: History, outdoor: map<real, Preprocessing.Float>, power: map<real, Preprocessing.Float>,
                       usePower: bool): seq<real>
    decreases |room|
  {
    if |room| == 0 then []
    else
      var t := room[|room| - 1].0;
      var rest := SharedTimes(room[..|room| - 1], outdoor, power, usePower);
      if t in outdoor && (usePower ==> t in power) then rest + [t] else rest
  }

  lemma {:induction false} SharedTimesSpec(room: History, outdoor: map<real, Preprocessing.Float>,
                                           power: map<real, Preprocessing.Float>, usePower: bool)
    ensures forall t :: t in SharedTimes(room, outdoor, power, usePower) <==>
      (exists i :: 0 <= i < |room| && room[i].0 == t) && t in outdoor && (usePower ==> t in power)
    decreases |room|
  {
    if |room| > 0 {
      var n := |room| - 1;
      SharedTimesSpec(room[..n], outdoor, power, usePower);
      forall t ensures t in SharedTimes(room, outdoor, power, usePower) <==>
        (exists i :: 0 <= i < |room| && room[i].0 == t) && t in outdoor && (usePower ==> t in power)
      {
        if exists i :: 0 <= i < |room| && room[i].0 == t {
          var i :| 0 <= i < |room| && room[i].0 == t;
          if i < n {
            assert room[..n][i].0 == t;
          }
        }
        if exists i :: 0 <= i < n && room[..n][i].0 == t {
          var i :| 0 <= i < n && room[..n][i].0 == t;
          assert room[i].0 == t;
        }
      }
    }
  }

  /**
   * The common timestamps: the sorted intersection of the room and outdoor
   * timestamps, and of the power timestamps too when power is used.
   */
  function AlignedTimestamps(room: History, outdoor: History, power: History, usePower: bool): seq<real>
  {
    SortedDistinct(SharedTimes(room, ToDict(outdoor), ToDict(power), usePower))
  }

  lemma AlignedTimestampsSpec(room: History, outdoor: History, power: History, usePower: bool)
    ensures var ts := AlignedTimestamps(room, outdoor, power, usePower);
      Increasing(ts) &&
      forall t :: t in ts <==> t in ToDict(room) && t in ToDict(outdoor) && (usePower ==> t in ToDict(power))
    ensures var ts := AlignedTimestamps(room, outdoor, power, usePower);
      forall k :: 0 <= k < |ts| ==> ts[k] in ToDict(room) && ts[k] in ToDict(outdoor) && (usePower ==> ts[k] in ToDict(power))
  {
    ToDictKeys(room);
    ToDictLastWins(room);
    SharedTimesSpec(room, ToDict(outdoor), ToDict(power), usePower);
    SortedDistinctSpec(SharedTimes(room, ToDict(outdoor), ToDict(power), usePower));
    var ts := AlignedTimestamps(room, outdoor, power, usePower);
    forall k | 0 <= k < |ts| ensures ts[k] in ts {
    }
  }

  /** `[d[t] for t in timestamps]`. */
  function Column(d: map<real, Preprocessing.Float>, ts: seq<real>): (r: seq<Preprocessing.Float>)
    requires forall k :: 0 <= k < |ts| ==> ts[k] in d
    ensures |r| == |ts|
  {
    seq(|ts|, i requires 0 <= i < |ts| => d[ts[i]])
  }

  /** The aligned raw series: timestamps, room and outdoor temperatures, and heating powers (zero without power data). */
  datatype Aligned = Aligned(timestamps: seq<real>, temperatures: seq<Preprocessing.Float>,
                             outdoorTemps: seq<Preprocessing.Float>, heatingPowers: seq<Preprocessing.Float>)

  function Align(room: History, outdoor: History, power: History, usePower: bool): (a: Aligned)
    ensures |a.temperatures| == |a.outdoorTemps| == |a.heatingPowers| == |a.timestamps|
    ensures a.timestamps == AlignedTimestamps(room, outdoor, power, usePower)
  {
    var ts := AlignedTimestamps(room, outdoor, power, usePower);
    AlignedTimestampsSpec(room, outdoor, power, usePower);
    Aligned(ts, Column(ToDict(room), ts), Column(ToDict(outdoor), ts),
            if usePower then Column(ToDict(power), ts) else Repeat(Preprocessing.Num(0.0), |ts|))
  }

  /**
   * Each aligned sample is the last value recorded at its timestamp in each
   * series; without power data the heating power is taken as zero.
   */
  lemma AlignedValues(room: History, outdoor: History, power: History, usePower: bool, k: nat, i: nat, j: nat)
    requires k < |AlignedTimestamps(room, outdoor, power, usePower)|
    requires i < |room| && room[i].0 == AlignedTimestamps(room, outdoor, power, usePower)[k]
    requires forall m :: i < m < |room| ==> room[m].0 != room[i].0
    requires j < |outdoor| && outdoor[j].0 == room[i].0
    requires forall m :: j < m < |outdoor| ==> outdoor[m].0 != outdoor[j].0
    ensures var a := Align(room, outdoor, power, usePower);
      a.temperatures[k] == room[i].1 && a.outdoorTemps[k] == outdoor[j].1 &&
      (!usePower ==> a.heatingPowers[k] == Preprocessing.Num(0.0))
  {
    ToDictKeys(room);
    ToDictLastWins(room);
    ToDictKeys(outdoor);
    ToDictLastWins(outdoor);
    AlignedTimestampsSpec(room, outdoor, power, usePower);
  }

  lemma IncreasingIsNonDecreasing(s: seq<real>)
    requires Increasing(s)
    ensures NonDecreasing(s)
  {
  }

  // ---------------------------------------------------------------------
  // Fitting and scoring
  // ---------------------------------------------------------------------

  /** The state a fresh `ParameterEstimator(dt)` starts from. */
  function EstimatorStart(dt: real, libm: Libm): (s: Estimator.RlsState)
    ensures s.WellShaped() && s.nUpdates == 0
  {
    Estimator.InitialState().(theta := Estimator.ThetaFromParameters(Estimator.DefaultParameters(), dt, libm))
  }

  /**
   * The estimator state after the training loop has processed samples
   * 1 … k−1: sample i is fitted from the temperature, outdoor temperature
   * and power at i − 1.
   */
  function RlsRun(s0: Estimator.RlsState, lambda: real, T: seq<real>, Tout: seq<real>, P: seq<real>, k: nat): (s: Estimator.RlsState)
    requires s0.WellShaped() && lambda > 0.0 && |Tout| == |T| && |P| == |T| && k <= |T|
    ensures s.WellShaped()
    decreases k
  {
    if k <= 1 then s0
    else Estimator.RlsUpdate(RlsRun(s0, lambda, T, Tout, P, k - 1), lambda, T[k - 1], Tout[k - 2], P[k - 2], Some(T[k - 2])).0
  }

  /**
   * Every training step supplies the previous temperature, so none is the
   * first-call skip: each either counts or is skipped for a vanishing
   * denominator, and k samples give at most k − 1 counted updates.
   */
  lemma {:induction false} RlsRunCounts(s0: Estimator.RlsState, lambda: real, T: seq<real>, Tout: seq<real>, P: seq<real>, k: nat)
    requires s0.WellShaped() && lambda > 0.0 && |Tout| == |T| && |P| == |T| && 1 <= k <= |T|
    ensures s0.nUpdates <= RlsRun(s0, lambda, T, Tout, P, k).nUpdates <= s0.nUpdates + k - 1
    decreases k
  {
    if k > 1 {
      RlsRunCounts(s0, lambda, T, Tout, P, k - 1);
      Estimator.UpdateCases(RlsRun(s0, lambda, T, Tout, P, k - 1), lambda, T[k - 1], Tout[k - 2], P[k - 2], Some(T[k - 2]));
    }
  }

  /**
   * The validation trajectory: y_pred[0] is the first measured temperature
   * and every later entry is one model step from the previous prediction,
   * with the recorded power and outdoor temperature and no disturbance.
   */
  function ValidationPrediction(c: Thermal.Coefficients, T: seq<real>, Tout: seq<real>, P: seq<real>): (y: seq<real>)
    requires |T| >= 1 && |Tout| == |T| && |P| == |T|
    ensures |y| == |T|
  {
    var n := |T| - 1;
    Thermal.Trajectory(c, T[0], P[..n], Tout[..n], Repeat(0.0, n))
  }

  lemma ValidationPredictionSteps(c: Thermal.Coefficients, T: seq<real>, Tout: seq<real>, P: seq<real>)
    requires |T| >= 1 && |Tout| == |T| && |P| == |T|
    ensures var y := ValidationPrediction(c, T, Tout, P);
      y[0] == T[0] &&
      forall i :: 1 <= i < |T| ==> y[i] == Thermal.SimulateStep(c, y[i - 1], P[i - 1], Tout[i - 1], 0.0)
  {
    var n := |T| - 1;
    Thermal.TrajectoryStep(c, T[0], P[..n], Tout[..n], Repeat(0.0, n));
    var y := ValidationPrediction(c, T, Tout, P);
    forall i | 1 <= i < |T| ensures y[i] == Thermal.SimulateStep(c, y[i - 1], P[i - 1], Tout[i - 1], 0.0) {
      assert P[..n][i - 1] == P[i - 1] && Tout[..n][i - 1] == Tout[i - 1];
    }
  }

  /** `TrainingResult`. */
  datatype TrainingResult = TrainingResult(parameters: Option<Thermal.Parameters>, metrics: Option<TrainingMetrics>,
                                           trainingData: Option<Preprocessing.TrainingData>, success: bool, message: string)

  function Failed(trainingData: Option<Preprocessing.TrainingData>, message: string): (r: TrainingResult)
    ensures !r.success && r.parameters.None? && r.metrics.None?
  {
    TrainingResult(None, None, trainingData, false, message)
  }

  /** Preprocessed data that training can run on: valid, non-empty and finite. */
  predicate Fittable(d: Preprocessing.TrainingData)
  {
    d.Validate() && d.NSamples() >= 1 &&
    Preprocessing.AllFinite(d.temperatures) && Preprocessing.AllFinite(d.outdoorTemps) &&
    Preprocessing.AllFinite(d.heatingPowers)
  }

  /**
   * Steps 4 and 5: run RLS over the data, extract (R, C), simulate the
   * fitted model over the data from its first temperature and score it.
   */
  function Fitted(d: Preprocessing.TrainingData, libm: Libm): (r: TrainingResult)
    requires Fittable(d)
  {
    var T := Preprocessing.Reals(d.temperatures);
    var Tout := Preprocessing.Reals(d.outdoorTemps);
    var P := Preprocessing.Reals(d.heatingPowers);
    var parameters := RlsParameters(T, Tout, P, d.dt, libm);
    if parameters.None? then Failed(Some(d), RLS_FAILED)
    else
      var yPred := ValidationPrediction(Thermal.Discretize(parameters.value, d.dt, libm), T, Tout, P);
      var metrics := CalculateMetrics(T, yPred, libm).value;
      var success := metrics.rmse < SUCCESS_RMSE && metrics.rSquared > SUCCESS_R_SQUARED;
      TrainingResult(parameters, Some(metrics), Some(d), success,
                     if success then TRAINING_SUCCESSFUL else METRICS_POOR)
  }

  /**
   * The parameters a fresh estimator yields after the training loop over
   * the series: `get_thermal_parameters` after `RlsRun`.
   */
  function RlsParameters(T: seq<real>, Tout: seq<real>, P: seq<real>, dt: real, libm: Libm): (r: Option<Thermal.Parameters>)
    requires |Tout| == |T| && |P| == |T|
    ensures r.Some? ==> r.value.Validate()
  {
    var s := RlsRun(EstimatorStart(dt, libm), Estimator.FORGETTING_FACTOR_DEFAULT, T, Tout, P, |T|);
    Estimator.ExtractParameters(s.theta, dt, libm)
  }

  /**
   * `train_from_history` after the fetches: align, check the count,
   * preprocess, check the count again, then fit and score.
   */
  function TrainOnHistory(room: History, outdoor: History, power: History, usePower: bool,
                          dt: real, minSamples: int, libm: Libm): (r: TrainingResult)
    requires dt > 0.0
  {
    var a := Align(room, outdoor, power, usePower);
    if |a.timestamps| < minSamples then
      Failed(None, INSUFFICIENT_ALIGNED + NatToString(|a.timestamps|) + " < " + IntToString(minSamples))
    else
      AlignedTimestampsSpec(room, outdoor, power, usePower);
      var pre := Preprocessing.Preprocessed(a.timestamps, a.temperatures, a.outdoorTemps, a.heatingPowers,
                                            Preprocessing.DEFAULT_TEMP_MIN, Preprocessing.DEFAULT_TEMP_MAX,
                                            Preprocessing.DEFAULT_POWER_MAX, dt, Preprocessing.DEFAULT_FILTER_WINDOW);
      if pre.None? || pre.value.NSamples() < minSamples then
        Failed(pre, INSUFFICIENT_PREPROCESSED + NatToString(if pre.Some? then pre.value.NSamples() else 0))
      else Fitted(pre.value, libm)
  }

  /**
   * `train_from_history` with the recorder fetches given as their
   * outcomes: a fetch that raised, or an empty room or outdoor history,
   * ends training before alignment. The power history is fetched only
   * when its entity is given; an empty one means zero heating.
   */
  function Train(roomEntity: string, outdoorEntity: string, powerEntity: Option<string>,
                 roomFetch: Result<History>, outdoorFetch: Result<History>, powerFetch: Result<History>,
                 dt: real, minSamples: int, libm: Libm): (r: TrainingResult)
    requires dt > 0.0
  {
    if roomFetch.Failure? then Failed(None, FETCH_FAILED + roomFetch.error)
    else if |roomFetch.value| == 0 then Failed(None, NO_HISTORY + roomEntity)
    else if outdoorFetch.Failure? then Failed(None, FETCH_FAILED + outdoorFetch.error)
    else if |outdoorFetch.value| == 0 then Failed(None, NO_HISTORY + outdoorEntity)
    else if Given(powerEntity) && powerFetch.Failure? then Failed(None, FETCH_FAILED + powerFetch.error)
    else
      var power := if Given(powerEntity) then powerFetch.value else [];
      TrainOnHistory(roomFetch.value, outdoorFetch.value, power, |power| > 0, dt, minSamples, libm)
  }

  /**
   * Training fails before alignment when a fetch raised or the room or
   * outdoor history is empty, naming the entity with no data.
   */
  lemma EarlyFailures(roomEntity: string, outdoorEntity: string, powerEntity: Option<string>,
                      roomFetch: Result<History>, outdoorFetch: Result<History>, powerFetch: Result<History>,
                      dt: real, minSamples: int, libm: Libm)
    requires dt > 0.0
    ensures var r := Train(roomEntity, outdoorEntity, powerEntity, roomFetch, outdoorFetch, powerFetch, dt, minSamples, libm);
      (roomFetch.Success? && |roomFetch.value| == 0 ==>
        !r.success && r.trainingData.None? && r.message == NO_HISTORY + roomEntity) &&
      (roomFetch.Success? && |roomFetch.value| > 0 && outdoorFetch.Success? && |outdoorFetch.value| == 0 ==>
        !r.success && r.trainingData.None? && r.message == NO_HISTORY + outdoorEntity) &&
      (roomFetch.Failure? ==> !r.success && r.message == FETCH_FAILED + roomFetch.error)
  {
  }

  /**
   * Fewer aligned samples than `min_samples` fail before preprocessing
   * runs: no training data is reported.
   */
  lemma TooFewAlignedSamples(room: History, outdoor: History, power: History, usePower: bool,
                             dt: real, minSamples: int, libm: Libm)
    requires dt > 0.0
    requires |AlignedTimestamps(room, outdoor, power, usePower)| < minSamples
    ensures var r := TrainOnHistory(room, outdoor, power, usePower, dt, minSamples, libm);
      !r.success && r.trainingData.None? && r.parameters.None? &&
      r.message == INSUFFICIENT_ALIGNED + NatToString(|AlignedTimestamps(room, outdoor, power, usePower)|) +
        " < " + IntToString(minSamples)
  {
  }

  /**
   * Power data is used exactly when its entity is given and its history is
   * non-empty; otherwise the aligned timestamps ignore it and the heating
   * power is zero throughout.
   */
  lemma PowerOnlyWhenRecorded(roomEntity: string, outdoorEntity: string, powerEntity: Option<string>,
                              room: History, outdoor: History, powerFetch: Result<History>,
                              dt: real, minSamples: int, libm: Libm)
    requires dt > 0.0 && |room| > 0 && |outdoor| > 0
    requires !Given(powerEntity) || (powerFetch.Success? && |powerFetch.value| == 0)
    ensures Train(roomEntity, outdoorEntity, powerEntity, Success(room), Success(outdoor), powerFetch, dt, minSamples, libm) ==
      TrainOnHistory(room, outdoor, [], false, dt, minSamples, libm)
    ensures forall k :: 0 <= k < |Align(room, outdoor, [], false).heatingPowers| ==>
      Align(room, outdoor, [], false).heatingPowers[k] == Preprocessing.Num(0.0)
  {
  }

  /**
   * A successful training has found valid parameters, scored them on
   * at least `min_samples` preprocessed samples with RMSE below 2 °C and
   * R² above 0.5, and says so; and a fit that was scored is a success
   * exactly when both criteria hold.
   */
  lemma SuccessCriteria(room: History, outdoor: History, power: History, usePower: bool,
                        dt: real, minSamples: int, libm: Libm)
    requires dt > 0.0
    ensures var r := TrainOnHistory(room, outdoor, power, usePower, dt, minSamples, libm);
      (r.success ==>
        r.parameters.Some? && r.parameters.value.Validate() && r.metrics.Some? && r.trainingData.Some? &&
        r.metrics.value.rmse < SUCCESS_RMSE && r.metrics.value.rSquared > SUCCESS_R_SQUARED &&
        |AlignedTimestamps(room, outdoor, power, usePower)| >= minSamples &&
        r.trainingData.value.NSamples() >= minSamples &&
        r.metrics.value.nSamples == r.trainingData.value.NSamples() &&
        r.message == TRAINING_SUCCESSFUL) &&
      (r.metrics.Some? ==>
        (r.success <==> r.metrics.value.rmse < SUCCESS_RMSE && r.metrics.value.rSquared > SUCCESS_R_SQUARED))
  {
    var a := Align(room, outdoor, power, usePower);
    if |a.timestamps| >= minSamples {
      AlignedTimestampsSpec(room, outdoor, power, usePower);
      var pre := Preprocessing.Preprocessed(a.timestamps, a.temperatures, a.outdoorTemps, a.heatingPowers,
                                            Preprocessing.DEFAULT_TEMP_MIN, Preprocessing.DEFAULT_TEMP_MAX,
                                            Preprocessing.DEFAULT_POWER_MAX, dt, Preprocessing.DEFAULT_FILTER_WINDOW);
      if pre.Some? && pre.value.NSamples() >= minSamples {
        FittedOutcome(pre.value, libm);
      }
    }
  }

  /**
   * On preprocessed data: a fit that finds parameters is scored on every
   * sample and succeeds exactly when RMSE < 2 °C and R² > 0.5.
   */
  lemma FittedOutcome(d: Preprocessing.TrainingData, libm: Libm)
    requires Fittable(d)
    ensures var r := Fitted(d, libm);
      r.trainingData == Some(d) &&
      (r.parameters.Some? <==> r.metrics.Some?) &&
      (r.parameters.Some? ==> r.parameters.value.Validate() && r.metrics.value.nSamples == d.NSamples()) &&
      (r.metrics.Some? ==>
        (r.success <==> r.metrics.value.rmse < SUCCESS_RMSE && r.metrics.value.rSquared > SUCCESS_R_SQUARED)) &&
      (r.success ==> r.metrics.Some? && r.message == TRAINING_SUCCESSFUL)
  {
  }

  /**
   * `train_from_history`, with the RLS loop driving a `ParameterEstimator`
   * and the validation loop filling `y_pred` in place.
   */
  method TrainFromHistory(roomEntity: string, outdoorEntity: string, powerEntity: Option<string>,
                          roomFetch: Result<History>, outdoorFetch: Result<History>, powerFetch: Result<History>,
                          dt: real, minSamples: int, libm: Libm) returns (r: TrainingResult)
    requires dt > 0.0
    ensures r == Train(roomEntity, outdoorEntity, powerEntity, roomFetch, outdoorFetch, powerFetch, dt, minSamples, libm)
  {
    if roomFetch.Failure? {
      return Failed(None, FETCH_FAILED + roomFetch.error);
    }
    if |roomFetch.value| == 0 {
      return Failed(None, NO_HISTORY + roomEntity);
    }
    if outdoorFetch.Failure? {
      return Failed(None, FETCH_FAILED + outdoorFetch.error);
    }
    if |outdoorFetch.value| == 0 {
      return Failed(None, NO_HISTORY + outdoorEntity);
    }
    var power: History := [];
    if Given(powerEntity) {
      if powerFetch.Failure? {
        return Failed(None, FETCH_FAILED + powerFetch.error);
      }
      power := powerFetch.value;
    }
    r := TrainOnRecorded(roomFetch.value, outdoorFetch.value, power, |power| > 0, dt, minSamples, libm);
  }

  /** The part of `train_from_history` after the fetches. */
  method TrainOnRecorded(room: History, outdoor: History, power: History, usePower: bool,
                         dt: real, minSamples: int, libm: Libm) returns (r: TrainingResult)
    requires dt > 0.0
    ensures r == TrainOnHistory(room, outdoor, power, usePower, dt, minSamples, libm)
  {
    var a := Align(room, outdoor, power, usePower);
    if |a.timestamps| < minSamples {
      return Failed(None, INSUFFICIENT_ALIGNED + NatToString(|a.timestamps|) + " < " + IntToString(minSamples));
    }
    AlignedTimestampsSpec(room, outdoor, power, usePower);
    var pre := Preprocessing.PreprocessTrainingData(a.timestamps, a.temperatures, a.outdoorTemps, a.heatingPowers,
                                                    Preprocessing.DEFAULT_TEMP_MIN, Preprocessing.DEFAULT_TEMP_MAX,
                                                    Preprocessing.DEFAULT_POWER_MAX, Preprocessing.DEFAULT_MAX_GAP_MINUTES,
                                                    dt, Preprocessing.DEFAULT_FILTER_WINDOW);
    if pre.None? || pre.value.NSamples() < minSamples {
      return Failed(pre, INSUFFICIENT_PREPROCESSED + NatToString(if pre.Some? then pre.value.NSamples() else 0));
    }
    r := FitModel(pre.value, libm);
  }

  /** Steps 4 and 5 of `train_from_history` on preprocessed data. */
  method FitModel(d: Preprocessing.TrainingData, libm: Libm) returns (r: TrainingResult)
    requires Fittable(d)
    ensures r == Fitted(d, libm)
  {
    var T := Preprocessing.Reals(d.temperatures);
    var Tout := Preprocessing.Reals(d.outdoorTemps);
    var P := Preprocessing.Reals(d.heatingPowers);
    var parameters := EstimateParameters(T, Tout, P, d.dt, libm);
    if parameters.None? {
      return Failed(Some(d), RLS_FAILED);
    }
    var model := new Thermal.ThermalModel(parameters.value, d.dt, libm);
    var yPred := Predictions(model.Coeffs(), T, Tout, P);
    var metrics := CalculateMetrics(T, yPred, libm).value;
    var success := metrics.rmse < SUCCESS_RMSE && metrics.rSquared > SUCCESS_R_SQUARED;
    r := TrainingResult(parameters, Some(metrics), Some(d), success,
                        if success then TRAINING_SUCCESSFUL else METRICS_POOR);
  }

  /**
   * The training loop: a fresh `ParameterEstimator(dt)` updated with
   * sample i from sample i − 1 for i = 1 … n−1, then asked for (R, C).
   */
  method EstimateParameters(T: seq<real>, Tout: seq<real>, P: seq<real>, dt: real, libm: Libm)
    returns (parameters: Option<Thermal.Parameters>)
    requires |Tout| == |T| && |P| == |T|
    ensures parameters == RlsParameters(T, Tout, P, dt, libm)
  {
    var n := |T|;
    var estimator := new Estimator.ParameterEstimator(dt, Estimator.FORGETTING_FACTOR_DEFAULT, None, libm);
    var i := 1;
    while i < n
      invariant 1 <= i && (n == 0 || i <= n)
      invariant estimator.Valid() && fresh(estimator.theta) && fresh(estimator.P)
      invariant estimator.dt == dt && estimator.lambda == Estimator.FORGETTING_FACTOR_DEFAULT && estimator.libm == libm
      invariant estimator.State() == RlsRun(EstimatorStart(dt, libm), Estimator.FORGETTING_FACTOR_DEFAULT, T, Tout, P, if n == 0 then 0 else i)
    {
      var _ := estimator.Update(T[i], Tout[i - 1], P[i - 1], Some(T[i - 1]));
      i := i + 1;
    }
    parameters := estimator.GetThermalParameters();
  }

  /** The validation loop: `y_pred[0] = T[0]`, then one model step per sample. */
  method Predictions(c: Thermal.Coefficients, T: seq<real>, Tout: seq<real>, P: seq<real>) returns (y: seq<real>)
    requires |T| >= 1 && |Tout| == |T| && |P| == |T|
    ensures y == ValidationPrediction(c, T, Tout, P)
  {
    var n := |T|;
    var yPred := new real[n];
    yPred[0] := T[0];
    var i := 1;
    while i < n
      invariant 1 <= i <= n
      invariant yPred[..i] == Thermal.Trajectory(c, T[0], P[..i - 1], Tout[..i - 1], Repeat(0.0, i - 1))
    {
      yPred[i] := Thermal.SimulateStep(c, yPred[i - 1], P[i - 1], Tout[i - 1], 0.0);
      assert P[..i][..i - 1] == P[..i - 1] && Tout[..i][..i - 1] == Tout[..i - 1];
      assert Repeat(0.0, i)[..i - 1] == Repeat(0.0, i - 1);
      assert yPred[..i + 1] == yPred[..i] + [yPred[i]];
      i := i + 1;
    }
    assert yPred[..] == yPred[..n];
    y := yPred[..];
  }
}

/**
 * Preparation of recorded history for parameter identification: outlier
 * masks, linear interpolation of NaN gaps in place, resampling onto a fixed
 * time grid, a centred moving-average filter, and the pipeline that chains
 * them.
 *
 * NumPy floats are `Float`, with NaN and the two infinities as their own
 * cases; timestamps are seconds.
 */
module Preprocessing {
  import opened Base

  const DEFAULT_TEMP_MIN: real := 0.0
  const DEFAULT_TEMP_MAX: real := 50.0
  const DEFAULT_POWER_MAX: real := 10000.0
  const DEFAULT_MAX_GAP_MINUTES: int := 30
  const DEFAULT_TARGET_DT: real := 600.0
  const DEFAULT_FILTER_WINDOW: int := 3
  /** Fewer samples than this after masking make the pipeline give up. */
  const MIN_SAMPLES: nat := 10

  datatype Float = Num(v: real) | NaN | PosInf | NegInf

  predicate IsFinite(x: Float) { x.Num? }

  predicate AllFinite(s: seq<Float>)
  {
    forall i :: 0 <= i < |s| ==> s[i].Num?
  }

  /** The values of a series known to be finite. */
  function Reals(s: seq<Float>): (r: seq<real>)
    requires AllFinite(s)
    ensures |r| == |s| && forall i :: 0 <= i < |s| ==> s[i] == Num(r[i])
  {
    seq(|s|, i requires 0 <= i < |s| => s[i].v)
  }

  /** `x >= m` on a float (false for NaN). */
  predicate AtLeast(x: Float, m: real)
  {
    match x
    case Num(v) => v >= m
    case PosInf => true
    case _ => false
  }

  /** `x <= m` on a float (false for NaN). */
  predicate AtMost(x: Float, m: real)
  {
    match x
    case Num(v) => v <= m
    case NegInf => true
    case _ => false
  }

  /** IEEE addition: NaN absorbs, opposite infinities give NaN. */
  function FAdd(a: Float, b: Float): (r: Float)
    ensures a.Num? && b.Num? ==> r == Num(a.v + b.v)
  {
    match (a, b)
    case (NaN, _) => NaN
    case (_, NaN) => NaN
    case (PosInf, NegInf) => NaN
    case (NegInf, PosInf) => NaN
    case (PosInf, _) => PosInf
    case (_, PosInf) => PosInf
    case (NegInf, _) => NegInf
    case (_, NegInf) => NegInf
    case (Num(x), Num(y)) => Num(x + y)
  }

  /** IEEE multiplication by a positive finite constant. */
  function FMul(x: Float, c: real): Float
    requires c > 0.0
  {
    match x
    case Num(v) => Num(v * c)
    case _ => x
  }

  /** `TrainingData`: parallel arrays of samples at a fixed step. */
  datatype TrainingData = TrainingData(timestamps: seq<real>, temperatures: seq<Float>, outdoorTemps: seq<Float>,
                                       heatingPowers: seq<Float>, dt: real)
  {
    function NSamples(): nat
    {
      |temperatures|
    }

    /** `validate`: every array has `n_samples` entries. */
    predicate Validate()
    {
      if |outdoorTemps| != NSamples() then false
      else if |heatingPowers| != NSamples() then false
      else if |timestamps| != NSamples() then false
      else true
    }
  }

  lemma {:induction false} ValidateIff(d: TrainingData)
    ensures d.Validate() <==>
      |d.outdoorTemps| == |d.temperatures| && |d.heatingPowers| == |d.temperatures| && |d.timestamps| == |d.temperatures|
  {
  }

  /** The sample survives `remove_outliers`: within the given bounds and finite. */
  predicate Admissible(x: Float, minValue: Option<real>, maxValue: Option<real>)
  {
    (minValue.Some? ==> AtLeast(x, minValue.value)) &&
    (maxValue.Some? ==> AtMost(x, maxValue.value)) &&
    IsFinite(x)
  }

  /**
   * `remove_outliers`: an unchanged copy of the data and a mask built by
   * and-ing the lower bound, the upper bound and finiteness into all-true.
   */
  method RemoveOutliers(data: seq<Float>, minValue: Option<real>, maxValue: Option<real>)
    returns (cleaned: seq<Float>, mask: seq<bool>)
    ensures cleaned == data && |mask| == |data|
    ensures forall i :: 0 <= i < |data| ==>
      (mask[i] <==> IsFinite(data[i]) && (minValue.Some? ==> data[i].v >= minValue.value) &&
                    (maxValue.Some? ==> data[i].v <= maxValue.value))
    ensures forall i :: 0 <= i < |data| ==> mask[i] == Admissible(data[i], minValue, maxValue)
  {
    var m := new bool[|data|](_ => true);
    if minValue.Some? {
      for i := 0 to |data|
        invariant forall k :: 0 <= k < |data| ==> m[k] == (k < i ==> AtLeast(data[k], minValue.value))
      {
        m[i] := m[i] && AtLeast(data[i], minValue.value);
      }
    }
    if maxValue.Some? {
      for i := 0 to |data|
        invariant forall k :: 0 <= k < |data| ==>
          m[k] == ((minValue.Some? ==> AtLeast(data[k], minValue.value)) && (k < i ==> AtMost(data[k], maxValue.value)))
      {
        m[i] := m[i] && AtMost(data[i], maxValue.value);
      }
    }
    for i := 0 to |data|
      invariant forall k :: 0 <= k < |data| ==>
        m[k] == ((minValue.Some? ==> AtLeast(data[k], minValue.value)) &&
                 (maxValue.Some? ==> AtMost(data[k], maxValue.value)) && (k < i ==> IsFinite(data[k])))
    {
      m[i] := m[i] && IsFinite(data[i]);
    }
    return data, m[..];
  }

  function CountTrue(mask: seq<bool>): nat
  {
    if |mask| == 0 then 0 else CountTrue(mask[..|mask| - 1]) + (if mask[|mask| - 1] then 1 else 0)
  }

  /** `array[mask]` / `[t for i, t in enumerate(ts) if mask[i]]`. */
  function Select<T>(s: seq<T>, mask: seq<bool>): (r: seq<T>)
    requires |s| == |mask|
    ensures |r| == CountTrue(mask) && |r| <= |s|
  {
    if |s| == 0 then [] else Select(s[..|s| - 1], mask[..|s| - 1]) + (if mask[|s| - 1] then [s[|s| - 1]] else [])
  }

  /** Every selected element was at a masked-in position. */
  lemma {:induction false} SelectFrom<T>(s: seq<T>, mask: seq<bool>, P: T -> bool)
    requires |s| == |mask|
    requires forall i :: 0 <= i < |s| && mask[i] ==> P(s[i])
    ensures forall x :: x in Select(s, mask) ==> P(x)
  {
    if |s| > 0 {
      SelectFrom(s[..|s| - 1], mask[..|s| - 1], P);
    }
  }

  /** An all-true mask selects everything. */
  lemma {:induction false} SelectAll<T>(s: seq<T>, mask: seq<bool>)
    requires |s| == |mask| && forall i :: 0 <= i < |mask| ==> mask[i]
    ensures Select(s, mask) == s
  {
    if |s| > 0 {
      SelectAll(s[..|s| - 1], mask[..|s| - 1]);
    }
  }

  /** Selecting from a non-decreasing sequence keeps it non-decreasing. */
  lemma {:induction false} SelectNonDecreasing(s: seq<real>, mask: seq<bool>)
    requires |s| == |mask| && NonDecreasing(s)
    ensures NonDecreasing(Select(s, mask))
    ensures forall x :: x in Select(s, mask) ==> x in s
  {
    if |s| > 0 {
      var front := Select(s[..|s| - 1], mask[..|s| - 1]);
      SelectNonDecreasing(s[..|s| - 1], mask[..|s| - 1]);
      assert NonDecreasing(s[..|s| - 1]);
      if mask[|s| - 1] {
        forall x | x in front ensures x <= s[|s| - 1] {
          var k :| 0 <= k < |s| - 1 && s[k] == x;
        }
        var r := front + [s[|s| - 1]];
        forall i, j | 0 <= i <= j < |r| ensures r[i] <= r[j] {
          if j == |r| - 1 && i < j {
            assert r[i] in front;
          }
        }
      }
    }
  }

  /** Indices of the non-NaN entries below `n`, ascending (`np.where(~isnan)`). */
  function ValidIndicesBelow(data: seq<Float>, n: nat): (v: seq<nat>)
    requires n <= |data|
    ensures forall g :: 0 <= g < |v| ==> v[g] < n && !data[v[g]].NaN?
    ensures forall g, h :: 0 <= g < h < |v| ==> v[g] < v[h]
    ensures forall k :: 0 <= k < n && !data[k].NaN? ==> k in v
  {
    if n == 0 then [] else ValidIndicesBelow(data, n - 1) + (if data[n - 1].NaN? then [] else [n - 1])
  }

  function ValidIndices(data: seq<Float>): seq<nat>
  {
    ValidIndicesBelow(data, |data|)
  }

  /** Strictly between two consecutive valid indices every entry is NaN. */
  lemma {:induction false} BetweenValidIsNaN(data: seq<Float>, g: nat, k: nat)
    requires g + 1 < |ValidIndices(data)|
    requires ValidIndices(data)[g] < k < ValidIndices(data)[g + 1]
    ensures data[k].NaN?
  {
    var v := ValidIndices(data);
    if !data[k].NaN? {
      assert false;
    }
  }

  /** `(1 − α)·start + α·end` on floats, for 0 < α < 1. */
  function FLerp(a: Float, b: Float, alpha: real): (r: Float)
    requires 0.0 < alpha < 1.0
    ensures a.Num? && b.Num? ==> r.Num? && Between(r.v, a.v, b.v)
  {
    var r := FAdd(FMul(a, 1.0 - alpha), FMul(b, alpha));
    if a.Num? && b.Num? then
      assert r.v == a.v + alpha * (b.v - a.v);
      LerpBetween(a.v, b.v, alpha);
      r
    else r
  }

  /**
   * The value `interpolate_gaps` leaves at a NaN position `k` strictly
   * between consecutive valid indices `s` and `e`: the interpolant when the
   * gap spans at most `max_gap_minutes`, else still NaN.
   */
  function GapValue(timestamps: seq<real>, data: seq<Float>, s: nat, e: nat, k: nat, maxGapMinutes: int): Float
    requires s < k < e < |data| == |timestamps|
  {
    if (timestamps[e] - timestamps[s]) / 60.0 <= maxGapMinutes as real
    then FLerp(data[s], data[e], (k - s) as real / (e - s) as real)
    else data[k]
  }

  /**
   * `interpolate_gaps`: a copy of the data in which every NaN run between
   * two valid samples less than `max_gap_minutes` apart is filled linearly;
   * valid samples, runs before the first or after the last valid sample,
   * and runs across a larger gap are left as they are.
   */
  method InterpolateGaps(timestamps: seq<real>, data: seq<Float>, maxGapMinutes: int) returns (r: seq<Float>)
    requires |timestamps| == |data|
    ensures |r| == |data|
    ensures forall k :: 0 <= k < |data| && !data[k].NaN? ==> r[k] == data[k]
    ensures (forall k :: 0 <= k < |data| ==> !data[k].NaN?) ==> r == data
    ensures |ValidIndices(data)| < 2 ==> r == data
    ensures var v := ValidIndices(data);
      forall g, k :: 0 <= g < |v| - 1 && v[g] < k < v[g + 1] ==>
        r[k] == GapValue(timestamps, data, v[g], v[g + 1], k, maxGapMinutes)
    ensures var v := ValidIndices(data);
      |v| > 0 ==> forall k :: 0 <= k < |data| && (k < v[0] || k > v[|v| - 1]) ==> r[k] == data[k]
  {
    var valid := ValidIndices(data);
    if |data| == 0 || !(exists k :: 0 <= k < |data| && data[k].NaN?) || |valid| < 2 {
      if |valid| >= 2 {
        NothingToFill(data);
      }
      return data;
    }
    var a := new Float[|data|](i requires 0 <= i < |data| => data[i]);
    FillGaps(a, timestamps, data, maxGapMinutes);
    r := a[..];
    FilledAll(timestamps, data, maxGapMinutes, r);
  }

  /** The gap loop of `interpolate_gaps`, over a working copy of the data. */
  method FillGaps(a: array<Float>, timestamps: seq<real>, data: seq<Float>, maxGapMinutes: int)
    requires |timestamps| == |data| && a[..] == data && |ValidIndices(data)| >= 2
    modifies a
    ensures FilledThrough(timestamps, data, maxGapMinutes, a[..], |ValidIndices(data)| - 1)
  {
    var valid := ValidIndices(data);
    for i := 0 to |valid| - 1
      invariant FilledThrough(timestamps, data, maxGapMinutes, a[..], i)
    {
      ghost var before := a[..];
      GapEndpointsKept(timestamps, data, maxGapMinutes, before, i);
      FillGap(a, timestamps, data, valid[i], valid[i + 1], maxGapMinutes);
      GapStep(timestamps, data, maxGapMinutes, before, a[..], i);
    }
  }

  /** Without NaN the valid indices are consecutive, so there is no gap to fill. */
  lemma NothingToFill(data: seq<Float>)
    requires forall k :: 0 <= k < |data| ==> !data[k].NaN?
    ensures var v := ValidIndices(data); forall g :: 0 <= g < |v| - 1 ==> v[g + 1] == v[g] + 1
  {
    var v := ValidIndices(data);
    forall g | 0 <= g < |v| - 1 ensures v[g + 1] == v[g] + 1 {
      if v[g + 1] != v[g] + 1 {
        BetweenValidIsNaN(data, g, v[g] + 1);
      }
    }
  }

  /** Once the last gap is filled, the state is what `interpolate_gaps` promises. */
  lemma FilledAll(timestamps: seq<real>, data: seq<Float>, maxGapMinutes: int, r: seq<Float>)
    requires |timestamps| == |data| && |ValidIndices(data)| >= 2
    requires FilledThrough(timestamps, data, maxGapMinutes, r, |ValidIndices(data)| - 1)
    ensures var v := ValidIndices(data);
      forall g, k :: 0 <= g < |v| - 1 && v[g] < k < v[g + 1] ==>
        r[k] == GapValue(timestamps, data, v[g], v[g + 1], k, maxGapMinutes)
    ensures var v := ValidIndices(data);
      forall k :: 0 <= k < |data| && (k < v[0] || k > v[|v| - 1]) ==> r[k] == data[k]
  {
  }

  /**
   * The state of `interpolate_gaps` after the first `i` gaps: those gaps
   * hold their values, every valid sample and everything outside
   * [first valid, i-th valid] is still the input.
   */
  ghost predicate FilledThrough(timestamps: seq<real>, data: seq<Float>, maxGapMinutes: int, a: seq<Float>, i: nat)
    requires |timestamps| == |data|
  {
    var valid := ValidIndices(data);
    i < |valid| && |a| == |data| &&
    (forall k :: 0 <= k < |data| && (k <= valid[0] || k >= valid[i]) ==> a[k] == data[k]) &&
    (forall k :: 0 <= k < |data| && !data[k].NaN? ==> a[k] == data[k]) &&
    (forall g, k :: 0 <= g < i && valid[g] < k < valid[g + 1] ==>
      a[k] == GapValue(timestamps, data, valid[g], valid[g + 1], k, maxGapMinutes))
  }

  /** Before gap `i` is filled its whole span, endpoints included, is still the input. */
  lemma GapEndpointsKept(timestamps: seq<real>, data: seq<Float>, maxGapMinutes: int, a: seq<Float>, i: nat)
    requires |timestamps| == |data| && FilledThrough(timestamps, data, maxGapMinutes, a, i)
    requires i + 1 < |ValidIndices(data)|
    ensures forall k :: ValidIndices(data)[i] <= k <= ValidIndices(data)[i + 1] ==> a[k] == data[k]
  {
    var valid := ValidIndices(data);
    forall k | valid[i] <= k <= valid[i + 1] ensures a[k] == data[k] {
      if valid[i] < k < valid[i + 1] {
        BetweenValidIsNaN(data, i, k);
      }
    }
  }

  /** Filling gap `i` and nothing else moves the state on to `i + 1`. */
  lemma GapStep(timestamps: seq<real>, data: seq<Float>, maxGapMinutes: int, before: seq<Float>, after: seq<Float>, i: nat)
    requires |timestamps| == |data| && FilledThrough(timestamps, data, maxGapMinutes, before, i)
    requires i + 1 < |ValidIndices(data)| && |after| == |data|
    requires forall k :: 0 <= k < |data| && (k <= ValidIndices(data)[i] || k >= ValidIndices(data)[i + 1]) ==>
      after[k] == before[k]
    requires forall k :: ValidIndices(data)[i] < k < ValidIndices(data)[i + 1] ==>
      after[k] == GapValue(timestamps, data, ValidIndices(data)[i], ValidIndices(data)[i + 1], k, maxGapMinutes)
    ensures FilledThrough(timestamps, data, maxGapMinutes, after, i + 1)
  {
    var valid := ValidIndices(data);
    GapStepKeepsValid(data, before, after, i);
    forall g, k | 0 <= g < i + 1 && valid[g] < k < valid[g + 1]
      ensures after[k] == GapValue(timestamps, data, valid[g], valid[g + 1], k, maxGapMinutes)
    {
      if g < i {
        assert valid[g + 1] <= valid[i];
      }
    }
  }

  /** Filling gap `i` leaves every valid sample alone. */
  lemma GapStepKeepsValid(data: seq<Float>, before: seq<Float>, after: seq<Float>, i: nat)
    requires |before| == |after| == |data| && i + 1 < |ValidIndices(data)|
    requires forall k :: 0 <= k < |data| && !data[k].NaN? ==> before[k] == data[k]
    requires forall k :: 0 <= k < |data| && (k <= ValidIndices(data)[i] || k >= ValidIndices(data)[i + 1]) ==>
      after[k] == before[k]
    ensures forall k :: 0 <= k < |data| && !data[k].NaN? ==> after[k] == data[k]
  {
    forall k | 0 <= k < |data| && !data[k].NaN?
      ensures after[k] == data[k]
    {
      if ValidIndices(data)[i] < k < ValidIndices(data)[i + 1] {
        BetweenValidIsNaN(data, i, k);
      }
    }
  }

  /**
   * One gap of `interpolate_gaps`: between valid indices `s` and `e`, fill
   * the NaN run linearly when the gap spans at most `max_gap_minutes`.
   */
  method FillGap(a: array<Float>, timestamps: seq<real>, data: seq<Float>, s: nat, e: nat, maxGapMinutes: int)
    requires a.Length == |data| == |timestamps| && s < e < |data|
    requires forall k :: s <= k <= e ==> a[k] == data[k]
    modifies a
    ensures forall k :: 0 <= k < a.Length && (k <= s || k >= e) ==> a[k] == old(a[k])
    ensures forall k :: s < k < e ==> a[k] == GapValue(timestamps, data, s, e, k, maxGapMinutes)
  {
    var gapMinutes := (timestamps[e] - timestamps[s]) / 60.0;
    if gapMinutes <= maxGapMinutes as real {
      var gapSize := e - s;
      if gapSize > 1 {
        var startVal, endVal := a[s], a[e];
        for j := 1 to gapSize
          invariant forall k :: 0 <= k < a.Length && (k <= s || k >= s + j) ==> a[k] == old(a[k])
          invariant forall k :: s < k < s + j ==> a[k] == GapValue(timestamps, data, s, e, k, maxGapMinutes)
        {
          var alpha := j as real / gapSize as real;
          a[s + j] := FLerp(startVal, endVal, alpha);
        }
      }
    }
  }

  /** `int(duration / target_dt) + 1` grid points from the first to the last timestamp. */
  function GridLength(timestamps: seq<real>, targetDt: real): int
    requires |timestamps| > 0 && targetDt > 0.0
  {
    Trunc((timestamps[|timestamps| - 1] - timestamps[0]) / targetDt) + 1
  }

  function Count(n: int): nat
  {
    if n < 0 then 0 else n
  }

  /** The timestamps `resample_to_fixed_dt` returns: unchanged below two, else start + i·dt. */
  function ResampleGrid(timestamps: seq<real>, targetDt: real): (r: seq<real>)
    requires targetDt > 0.0
    ensures |timestamps| < 2 ==> r == timestamps
    ensures |timestamps| >= 2 ==> |r| == Count(GridLength(timestamps, targetDt))
    ensures |timestamps| >= 2 ==> forall i :: 0 <= i < |r| ==> r[i] == timestamps[0] + GridTime(i, targetDt)
  {
    if |timestamps| < 2 then timestamps
    else seq(Count(GridLength(timestamps, targetDt)), i requires i >= 0 => timestamps[0] + GridTime(i, targetDt))
  }

  lemma MulMonotone(a: real, b: real, c: real)
    requires 0.0 <= a <= b && c >= 0.0
    ensures a * c <= b * c
  {
  }

  /**
   * For time-ordered samples the grid is non-empty, starts at the first
   * timestamp, steps by `target_dt` and never passes the last timestamp.
   */
  lemma {:induction false} GridWithinSpan(timestamps: seq<real>, targetDt: real)
    requires |timestamps| >= 2 && targetDt > 0.0 && NonDecreasing(timestamps)
    ensures var grid := ResampleGrid(timestamps, targetDt);
      |grid| >= 1 && grid[0] == timestamps[0] &&
      forall i :: 0 <= i < |grid| ==> timestamps[0] <= grid[i] <= timestamps[|timestamps| - 1]
  {
    var duration := timestamps[|timestamps| - 1] - timestamps[0];
    var grid := ResampleGrid(timestamps, targetDt);
    assert |grid| == Trunc(duration / targetDt) + 1 by {
      DivMulCancel(duration, targetDt);
    }
    forall i | 0 <= i < |grid|
      ensures timestamps[0] <= grid[i] <= timestamps[|timestamps| - 1]
    {
      assert grid[i] == timestamps[0] + GridTime(i, targetDt);
      GridTimeWithin(duration, targetDt, i);
    }
  }

  /** Grid point `i` of `int(duration / dt) + 1` lies within [0, duration]. */
  lemma GridTimeWithin(duration: real, targetDt: real, i: nat)
    requires duration >= 0.0 && targetDt > 0.0 && i <= Trunc(duration / targetDt)
    ensures 0.0 <= GridTime(i, targetDt) <= duration
  {
    var q := duration / targetDt;
    DivMulCancel(duration, targetDt);
    assert i as real <= q;
    MulMonotone(0.0, i as real, targetDt);
    MulMonotone(i as real, q, targetDt);
  }

  lemma DivMulCancel(x: real, y: real)
    requires y > 0.0
    ensures x / y >= 0.0 <== x >= 0.0
    ensures (x / y) * y == x
  {
  }

  /** `original_times`: seconds since the first timestamp. */
  function RelativeTimes(timestamps: seq<real>): (r: seq<real>)
    requires |timestamps| > 0
    ensures |r| == |timestamps| && forall k :: 0 <= k < |r| ==> r[k] == timestamps[k] - timestamps[0]
  {
    seq(|timestamps|, k requires 0 <= k < |timestamps| => timestamps[k] - timestamps[0])
  }

  function FiniteMask(data: seq<Float>): (m: seq<bool>)
    ensures |m| == |data| && forall k :: 0 <= k < |data| ==> m[k] == IsFinite(data[k])
  {
    seq(|data|, k requires 0 <= k < |data| => IsFinite(data[k]))
  }

  /** The finite values, in order (`data[valid_mask]`). */
  function FiniteValues(data: seq<Float>): (r: seq<real>)
    ensures |r| == CountTrue(FiniteMask(data))
  {
    var vs := seq(|data|, k requires 0 <= k < |data| => if data[k].Num? then data[k].v else 0.0);
    Select(vs, FiniteMask(data))
  }

  /**
   * One series of `resample_to_fixed_dt` on at least two timestamps:
   * all-NaN with fewer than two finite samples, else `np.interp` of the
   * finite samples at the grid times.
   */
  function ResampleSeries(timestamps: seq<real>, data: seq<Float>, targetDt: real): (r: seq<Float>)
    requires |timestamps| == |data| >= 2 && targetDt > 0.0 && NonDecreasing(timestamps)
    ensures |r| == |ResampleGrid(timestamps, targetDt)|
  {
    var n := Count(GridLength(timestamps, targetDt));
    var mask := FiniteMask(data);
    if CountTrue(mask) < 2 then Repeat(NaN, n)
    else
      var xp := Select(RelativeTimes(timestamps), mask);
      var fp := FiniteValues(data);
      assert NonDecreasing(RelativeTimes(timestamps));
      SelectNonDecreasing(RelativeTimes(timestamps), mask);
      InterpolatedGrid(n, targetDt, xp, fp)
  }

  /** `np.interp` of the points (xp, fp) at the times 0, dt, 2·dt, …: finite and within the range of fp. */
  function InterpolatedGrid(n: nat, targetDt: real, xp: seq<real>, fp: seq<real>): (r: seq<Float>)
    requires |xp| == |fp| > 0 && NonDecreasing(xp)
    ensures |r| == n
    ensures forall i :: 0 <= i < n ==> r[i].Num? && SeqMin(fp) <= r[i].v <= SeqMax(fp)
  {
    seq(n, i requires 0 <= i < n => Num(Interp(GridTime(i, targetDt), xp, fp)))
  }

  /** Seconds from the first timestamp to grid point `i`. */
  function GridTime(i: nat, targetDt: real): real
  {
    i as real * targetDt
  }

  /**
   * With at least two finite samples every resampled value is finite and
   * lies within the range of the finite input values.
   */
  lemma {:induction false} ResampleWithinRange(timestamps: seq<real>, data: seq<Float>, targetDt: real)
    requires |timestamps| == |data| >= 2 && targetDt > 0.0 && NonDecreasing(timestamps)
    requires CountTrue(FiniteMask(data)) >= 2
    ensures var r := ResampleSeries(timestamps, data, targetDt); var fp := FiniteValues(data);
      forall i :: 0 <= i < |r| ==> r[i].Num? && SeqMin(fp) <= r[i].v <= SeqMax(fp)
  {
  }

  /** An even window is widened to the next odd size. */
  function OddWindow(windowSize: int): int
  {
    if windowSize % 2 == 0 then windowSize + 1 else windowSize
  }

  /** Left-to-right float sum. */
  function FSum(s: seq<Float>): Float
  {
    if |s| == 0 then Num(0.0) else FAdd(FSum(s[..|s| - 1]), s[|s| - 1])
  }

  /**
   * Entry `m` of the full convolution of the data with `w` weights 1/w:
   * the sum of data[k]/w over the k with 0 ≤ m − k < w.
   */
  function FullConvolution(data: seq<Float>, w: nat, m: int): Float
    requires w > 0
  {
    var lo := if m - w + 1 < 0 then 0 else m - w + 1;
    var hi := if m + 1 > |data| then |data| else m + 1;
    if lo >= hi then Num(0.0)
    else FSum(seq(hi - lo, j requires 0 <= j < hi - lo => FMul(data[lo + j], 1.0 / w as real)))
  }

  /**
   * `apply_moving_average_filter` as written: a copy for windows below 2;
   * else `np.convolve(data, ones(w)/w, mode="same")`, which has
   * max(len(data), w) entries taken from the middle of the full
   * convolution, and raises on empty data.
   */
  function MovingAverageAsWritten(data: seq<Float>, windowSize: int): (r: Result<seq<Float>>)
    ensures windowSize < 2 ==> r == Success(data)
    ensures windowSize >= 2 && |data| == 0 ==> r.Failure?
    ensures windowSize >= 2 && |data| > 0 ==> r.Success?
    ensures windowSize >= 2 && |data| > 0 ==>
      (|r.value| == if |data| >= OddWindow(windowSize) then |data| else OddWindow(windowSize))
  {
    if windowSize < 2 then Success(data)
    else if |data| == 0 then Failure("v cannot be empty")
    else
      var w := OddWindow(windowSize);
      var n := if |data| >= w then |data| else w;
      var shorter := if |data| <= w then |data| else w;
      var offset := (shorter - 1) / 2;
      Success(seq(n, i => FullConvolution(data, w, i + offset)))
  }

  /**
   * The moving average the pipeline relies on: the centred average of the
   * (zero-padded) w-sample window around each entry, one output per input.
   */
  function MovingAverageFilter(data: seq<Float>, windowSize: int): (r: seq<Float>)
    ensures |r| == |data|
    ensures windowSize < 2 ==> r == data
  {
    if windowSize < 2 then data
    else
      var w := OddWindow(windowSize);
      seq(|data|, i => FullConvolution(data, w, i + (w - 1) / 2))
  }

  /** Whenever the data is at least one window long, the written filter is this one. */
  lemma {:induction false} MovingAverageAgrees(data: seq<Float>, windowSize: int)
    requires windowSize < 2 || |data| >= OddWindow(windowSize)
    requires |data| > 0
    ensures MovingAverageAsWritten(data, windowSize) == Success(MovingAverageFilter(data, windowSize))
  {
  }

  /**
   * A single sample under the default window of 3 comes back as three
   * values, so a one-point grid (samples spanning less than one step) would
   * leave the filtered temperatures longer than the powers and the training
   * data would fail `validate`.
   */
  lemma MovingAverageChangesLength()
    ensures |MovingAverageAsWritten([Num(20.0)], DEFAULT_FILTER_WINDOW).value| == 3
    ensures |MovingAverageFilter([Num(20.0)], DEFAULT_FILTER_WINDOW)| == 1
    ensures var filtered := MovingAverageAsWritten([Num(20.0)], DEFAULT_FILTER_WINDOW).value;
      !TrainingData([0.0], filtered, filtered, [Num(0.0)], DEFAULT_TARGET_DT).Validate()
  {
  }

  lemma {:induction false} FSumConstant(s: seq<Float>, x: real)
    requires forall j :: 0 <= j < |s| ==> s[j] == Num(x)
    ensures FSum(s) == Num(|s| as real * x)
  {
    if |s| > 0 {
      FSumConstant(s[..|s| - 1], x);
    }
  }

  lemma WindowShare(w: nat, c: real)
    requires w > 0
    ensures w as real * (c * (1.0 / w as real)) == c
  {
    var q := 1.0 / w as real;
    assert w as real * q == 1.0;
    calc {
      w as real * (c * q);
      c * (w as real * q);
    }
  }

  /** A window lying wholly inside constant data averages to the constant. */
  lemma FullWindowOfConstant(data: seq<Float>, w: nat, c: real, m: int)
    requires w > 0 && forall k :: 0 <= k < |data| ==> data[k] == Num(c)
    requires w - 1 <= m < |data|
    ensures FullConvolution(data, w, m) == Num(c)
  {
    var lo := m - w + 1;
    var q := 1.0 / w as real;
    var window := seq(w, j requires 0 <= j < w => FMul(data[lo + j], q));
    forall j | 0 <= j < w ensures window[j] == Num(c * q) {
      assert data[lo + j] == Num(c);
      assert FMul(Num(c), q) == Num(c * q);
    }
    assert FullConvolution(data, w, m) == FSum(window);
    FSumConstant(window, c * q);
    WindowShare(w, c);
  }

  /**
   * Away from the edges the filter leaves a constant signal unchanged: the
   * full window of w values c/w sums to c.
   */
  lemma {:induction false} MovingAverageKeepsConstant(data: seq<Float>, windowSize: int, c: real, i: nat)
    requires windowSize >= 2 && forall k :: 0 <= k < |data| ==> data[k] == Num(c)
    requires (OddWindow(windowSize) - 1) / 2 <= i < |data| - (OddWindow(windowSize) - 1) / 2
    ensures MovingAverageFilter(data, windowSize)[i] == Num(c)
  {
    var w := OddWindow(windowSize);
    var m := i + (w - 1) / 2;
    assert MovingAverageFilter(data, windowSize)[i] == FullConvolution(data, w, m);
    FullWindowOfConstant(data, w, c, m);
  }

  /** The admissibility of one raw sample: both temperatures in range, power in [0, power_max]. */
  function ValidMask(temps: seq<Float>, outdoor: seq<Float>, powers: seq<Float>, tempMin: real, tempMax: real, powerMax: real): (m: seq<bool>)
    requires |temps| == |outdoor| == |powers|
    ensures |m| == |temps|
  {
    seq(|temps|, i requires 0 <= i < |temps| =>
      Admissible(temps[i], Some(tempMin), Some(tempMax)) &&
      Admissible(outdoor[i], Some(tempMin), Some(tempMax)) &&
      Admissible(powers[i], Some(0.0), Some(powerMax)))
  }

  /** The filter step: applied only for `filter_window > 1`. */
  function FilterStep(data: seq<Float>, filterWindow: int): (r: seq<Float>)
    ensures |r| == |data|
    ensures filterWindow <= 1 ==> r == data
  {
    if filterWindow > 1 then MovingAverageFilter(data, filterWindow) else data
  }

  /**
   * The training data built from the kept samples: the fixed grid, each
   * series resampled onto it, the two temperature series filtered. It
   * always passes `validate` and holds at least one sample.
   */
  function Resampled(timestamps: seq<real>, temperatures: seq<Float>, outdoorTemps: seq<Float>,
                     heatingPowers: seq<Float>, targetDt: real, filterWindow: int): (d: TrainingData)
    requires |timestamps| == |temperatures| == |outdoorTemps| == |heatingPowers| >= 2
    requires NonDecreasing(timestamps) && targetDt > 0.0
    ensures d.Validate() && d.NSamples() >= 1 && d.dt == targetDt
    ensures d.timestamps == ResampleGrid(timestamps, targetDt)
    ensures d.heatingPowers == ResampleSeries(timestamps, heatingPowers, targetDt)
  {
    GridWithinSpan(timestamps, targetDt);
    TrainingData(ResampleGrid(timestamps, targetDt),
                 FilterStep(ResampleSeries(timestamps, temperatures, targetDt), filterWindow),
                 FilterStep(ResampleSeries(timestamps, outdoorTemps, targetDt), filterWindow),
                 ResampleSeries(timestamps, heatingPowers, targetDt),
                 targetDt)
  }

  /** Finite kept samples give finite training data. */
  lemma ResampledFinite(timestamps: seq<real>, temperatures: seq<Float>, outdoorTemps: seq<Float>,
                        heatingPowers: seq<Float>, targetDt: real, filterWindow: int)
    requires |timestamps| == |temperatures| == |outdoorTemps| == |heatingPowers| >= 2
    requires NonDecreasing(timestamps) && targetDt > 0.0
    requires AllFinite(temperatures) && AllFinite(outdoorTemps) && AllFinite(heatingPowers)
    ensures var d := Resampled(timestamps, temperatures, outdoorTemps, heatingPowers, targetDt, filterWindow);
      AllFinite(d.temperatures) && AllFinite(d.outdoorTemps) && AllFinite(d.heatingPowers)
  {
    ResampleKeepsFinite(timestamps, temperatures, targetDt);
    ResampleKeepsFinite(timestamps, outdoorTemps, targetDt);
    ResampleKeepsFinite(timestamps, heatingPowers, targetDt);
    FilterKeepsFinite(ResampleSeries(timestamps, temperatures, targetDt), filterWindow);
    FilterKeepsFinite(ResampleSeries(timestamps, outdoorTemps, targetDt), filterWindow);
  }

  /** A finite series of at least two samples resamples to a finite series. */
  lemma ResampleKeepsFinite(timestamps: seq<real>, data: seq<Float>, targetDt: real)
    requires |timestamps| == |data| >= 2 && targetDt > 0.0 && NonDecreasing(timestamps) && AllFinite(data)
    ensures AllFinite(ResampleSeries(timestamps, data, targetDt))
  {
    var mask := FiniteMask(data);
    SelectAll(data, mask);
    assert CountTrue(mask) == |data|;
  }

  lemma {:induction false} FSumFinite(s: seq<Float>)
    requires AllFinite(s)
    ensures FSum(s).Num?
  {
    if |s| > 0 {
      FSumFinite(s[..|s| - 1]);
    }
  }

  /** Every entry of the full convolution of finite data is finite. */
  lemma ConvolutionFinite(data: seq<Float>, w: nat, m: int)
    requires w > 0 && AllFinite(data)
    ensures FullConvolution(data, w, m).Num?
  {
    var lo := if m - w + 1 < 0 then 0 else m - w + 1;
    var hi := if m + 1 > |data| then |data| else m + 1;
    if lo < hi {
      var q := 1.0 / w as real;
      var window := seq(hi - lo, j requires 0 <= j < hi - lo => FMul(data[lo + j], q));
      assert forall j :: 0 <= j < |window| ==> window[j] == FMul(data[lo + j], q);
      FSumFinite(window);
    }
  }

  /** The moving average of a finite series is finite. */
  lemma FilterKeepsFinite(data: seq<Float>, filterWindow: int)
    requires AllFinite(data)
    ensures AllFinite(FilterStep(data, filterWindow))
  {
    if filterWindow > 1 {
      var w := OddWindow(filterWindow);
      var r := MovingAverageFilter(data, filterWindow);
      forall i | 0 <= i < |data| ensures r[i].Num? {
        assert r[i] == FullConvolution(data, w, i + (w - 1) / 2);
        ConvolutionFinite(data, w, i + (w - 1) / 2);
      }
    }
  }

  /**
   * What `preprocess_training_data` returns: nothing when fewer than ten
   * samples survive the masks, else the kept samples resampled and
   * filtered. The result is valid, non-empty and finite throughout.
   */
  function Preprocessed(rawTimestamps: seq<real>, rawTemperatures: seq<Float>, rawOutdoorTemps: seq<Float>,
                        rawHeatingPowers: seq<Float>, tempMin: real, tempMax: real, powerMax: real,
                        targetDt: real, filterWindow: int): (r: Option<TrainingData>)
    requires |rawTemperatures| == |rawOutdoorTemps| == |rawHeatingPowers| == |rawTimestamps|
    requires NonDecreasing(rawTimestamps) && targetDt > 0.0
    ensures r.None? <==>
      CountTrue(ValidMask(rawTemperatures, rawOutdoorTemps, rawHeatingPowers, tempMin, tempMax, powerMax)) < MIN_SAMPLES
    ensures r.Some? ==> r.value.Validate() && r.value.NSamples() >= 1 && r.value.dt == targetDt
    ensures r.Some? ==>
      AllFinite(r.value.temperatures) && AllFinite(r.value.outdoorTemps) && AllFinite(r.value.heatingPowers)
  {
    var mask := ValidMask(rawTemperatures, rawOutdoorTemps, rawHeatingPowers, tempMin, tempMax, powerMax);
    if CountTrue(mask) < MIN_SAMPLES then None
    else
      SelectNonDecreasing(rawTimestamps, mask);
      KeptAreFinite(rawTemperatures, mask);
      KeptAreFinite(rawOutdoorTemps, mask);
      KeptAreFinite(rawHeatingPowers, mask);
      ResampledFinite(Select(rawTimestamps, mask), Select(rawTemperatures, mask), Select(rawOutdoorTemps, mask),
                      Select(rawHeatingPowers, mask), targetDt, filterWindow);
      Some(Resampled(Select(rawTimestamps, mask), Select(rawTemperatures, mask), Select(rawOutdoorTemps, mask),
                     Select(rawHeatingPowers, mask), targetDt, filterWindow))
  }

  /** The three `remove_outliers` masks of the pipeline, and-ed together. */
  method MaskSamples(temperatures: seq<Float>, outdoorTemps: seq<Float>, heatingPowers: seq<Float>,
                     tempMin: real, tempMax: real, powerMax: real) returns (mask: seq<bool>)
    requires |temperatures| == |outdoorTemps| == |heatingPowers|
    ensures mask == ValidMask(temperatures, outdoorTemps, heatingPowers, tempMin, tempMax, powerMax)
  {
    var _, tempMask := RemoveOutliers(temperatures, Some(tempMin), Some(tempMax));
    var _, outdoorMask := RemoveOutliers(outdoorTemps, Some(tempMin), Some(tempMax));
    var _, powerMask := RemoveOutliers(heatingPowers, Some(0.0), Some(powerMax));
    mask := seq(|tempMask|, i requires 0 <= i < |tempMask| => tempMask[i] && outdoorMask[i] && powerMask[i]);
  }

  /**
   * Every sample that survives the mask has both temperatures finite and
   * in [temp_min, temp_max] and a finite power in [0, power_max].
   */
  lemma {:induction false} KeptSamplesAdmissible(temperatures: seq<Float>, outdoorTemps: seq<Float>, heatingPowers: seq<Float>,
                                                 tempMin: real, tempMax: real, powerMax: real)
    requires |temperatures| == |outdoorTemps| == |heatingPowers|
    ensures var mask := ValidMask(temperatures, outdoorTemps, heatingPowers, tempMin, tempMax, powerMax);
      (forall x :: x in Select(temperatures, mask) ==> x.Num? && tempMin <= x.v <= tempMax) &&
      (forall x :: x in Select(outdoorTemps, mask) ==> x.Num? && tempMin <= x.v <= tempMax) &&
      (forall x :: x in Select(heatingPowers, mask) ==> x.Num? && 0.0 <= x.v <= powerMax)
  {
    var mask := ValidMask(temperatures, outdoorTemps, heatingPowers, tempMin, tempMax, powerMax);
    SelectFrom(temperatures, mask, (x: Float) => x.Num? && tempMin <= x.v <= tempMax);
    SelectFrom(outdoorTemps, mask, (x: Float) => x.Num? && tempMin <= x.v <= tempMax);
    SelectFrom(heatingPowers, mask, (x: Float) => x.Num? && 0.0 <= x.v <= powerMax);
  }

  /** After masking, every kept entry of a masked series is finite. */
  lemma {:induction false} KeptAreFinite(series: seq<Float>, mask: seq<bool>)
    requires |series| == |mask|
    requires forall i :: 0 <= i < |mask| && mask[i] ==> IsFinite(series[i])
    ensures AllFinite(Select(series, mask))
  {
    SelectFrom(series, mask, IsFinite);
    forall k | 0 <= k < |Select(series, mask)| ensures IsFinite(Select(series, mask)[k]) {
      assert Select(series, mask)[k] in Select(series, mask);
    }
  }

  /**
   * `interpolate_gaps` followed by dropping non-finite samples, on a
   * series that is already finite throughout: the series comes back as it
   * was.
   */
  method CleanFiniteSeries(timestamps: seq<real>, series: seq<Float>, maxGapMinutes: int) returns (r: seq<Float>)
    requires |timestamps| == |series|
    requires forall k :: 0 <= k < |series| ==> IsFinite(series[k])
    ensures r == series
  {
    r := InterpolateGaps(timestamps, series, maxGapMinutes);
  }

  /**
   * `preprocess_training_data`: mask out any sample with an inadmissible
   * temperature, outdoor temperature or power; give up below ten samples;
   * interpolate NaN gaps and drop remaining non-finite samples; resample
   * onto the fixed grid; filter the two temperature series (never the
   * powers); and validate.
   */
  method PreprocessTrainingData(rawTimestamps: seq<real>, rawTemperatures: seq<Float>, rawOutdoorTemps: seq<Float>,
                                rawHeatingPowers: seq<Float>, tempMin: real, tempMax: real, powerMax: real,
                                maxGapMinutes: int, targetDt: real, filterWindow: int)
    returns (r: Option<TrainingData>)
    requires |rawTemperatures| == |rawOutdoorTemps| == |rawHeatingPowers| == |rawTimestamps|
    requires NonDecreasing(rawTimestamps) && targetDt > 0.0
    ensures r == Preprocessed(rawTimestamps, rawTemperatures, rawOutdoorTemps, rawHeatingPowers,
                              tempMin, tempMax, powerMax, targetDt, filterWindow)
  {
    var validMask := MaskSamples(rawTemperatures, rawOutdoorTemps, rawHeatingPowers, tempMin, tempMax, powerMax);
    var timestamps := Select(rawTimestamps, validMask);
    var temperatures := Select(rawTemperatures, validMask);
    var outdoorTemps := Select(rawOutdoorTemps, validMask);
    var heatingPowers := Select(rawHeatingPowers, validMask);
    if |timestamps| < MIN_SAMPLES {
      return None;
    }
    SelectNonDecreasing(rawTimestamps, validMask);
    KeptAreFinite(rawTemperatures, validMask);
    KeptAreFinite(rawOutdoorTemps, validMask);
    KeptAreFinite(rawHeatingPowers, validMask);

    temperatures := CleanFiniteSeries(timestamps, temperatures, maxGapMinutes);
    outdoorTemps := CleanFiniteSeries(timestamps, outdoorTemps, maxGapMinutes);
    heatingPowers := CleanFiniteSeries(timestamps, heatingPowers, maxGapMinutes);
    var finalMask := seq(|timestamps|, i requires 0 <= i < |timestamps| =>
      IsFinite(temperatures[i]) && IsFinite(outdoorTemps[i]) && IsFinite(heatingPowers[i]));
    SelectAll(timestamps, finalMask);
    SelectAll(temperatures, finalMask);
    SelectAll(outdoorTemps, finalMask);
    SelectAll(heatingPowers, finalMask);
    timestamps := Select(timestamps, finalMask);
    temperatures := Select(temperatures, finalMask);
    outdoorTemps := Select(outdoorTemps, finalMask);
    heatingPowers := Select(heatingPowers, finalMask);

    var trainingData := Resampled(timestamps, temperatures, outdoorTemps, heatingPowers, targetDt, filterWindow);
    r := if |timestamps| >= MIN_SAMPLES && trainingData.Validate() then Some(trainingData) else None;
  }
}

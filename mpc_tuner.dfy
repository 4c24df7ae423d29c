/**
 * MPC weight tuning: a grid search over comfort/energy/smoothness weights
 * that keeps only combinations summing to about one, normalises them,
 * evaluates each and sorts the results by a combined score; a Pareto filter
 * over two objectives; and a recommendation by preference.
 *
 * Evaluating one weight set (a closed-loop simulation with the MPC
 * controller) is an input function returning the metrics.
 */
module Tuner {
  import opened Base

  datatype Weights = Weights(comfort: real, energy: real, smooth: real)

  /** What `_evaluate_parameters` measures for one weight set. */
  datatype Metrics = Metrics(rmse: real, totalEnergy: real, smoothness: real, costValue: real)

  /** `TuningResult`: the weights tried and what they achieved. */
  datatype TuningResult = TuningResult(weights: Weights, rmse: real, totalEnergy: real, smoothness: real, costValue: real)
  {
    /** `score`: 70 % RMSE, 20 % energy/100, 10 % smoothness/10 (lower is better). */
    function Score(): real
    {
      0.7 * rmse + 0.2 * (totalEnergy / 100.0) + 0.1 * (smoothness / 10.0)
    }
  }

  /**
   * The score is monotone in each metric, and on the unit metrics of the
   * reference example (RMSE 1, energy 100, smoothness 10) it is exactly 1.
   */
  lemma {:induction false} ScoreMonotone(a: TuningResult, b: TuningResult)
    requires a.rmse <= b.rmse && a.totalEnergy <= b.totalEnergy && a.smoothness <= b.smoothness
    ensures a.Score() <= b.Score()
    ensures a.rmse < b.rmse ==> a.Score() < b.Score()
    ensures TuningResult(a.weights, 1.0, 100.0, 10.0, 0.0).Score() == 1.0
  {
  }

  /** The default grid: 3 × 3 × 3 combinations. */
  const DEFAULT_W_COMFORT: seq<real> := [0.5, 0.7, 0.9]
  const DEFAULT_W_ENERGY: seq<real> := [0.1, 0.2, 0.3]
  const DEFAULT_W_SMOOTH: seq<real> := [0.05, 0.1, 0.15]

  /** The recommendation without any result. */
  const DEFAULT_WEIGHTS: Weights := Weights(0.7, 0.2, 0.1)

  /** One grid point: skipped unless its sum lies in [0.95, 1.05], else normalised by the sum. */
  function Combo(c: real, e: real, s: real): (r: Option<Weights>)
    ensures r.Some? <==> 0.95 <= c + e + s <= 1.05
    ensures r.Some? ==> r.value.comfort + r.value.energy + r.value.smooth == 1.0
  {
    var total := c + e + s;
    if !(0.95 <= total <= 1.05) then None
    else
      assert c / total + e / total + s / total == (c + e + s) / total;
      Some(Weights(c / total, e / total, s / total))
  }

  function OptionSeq<T>(o: Option<T>): (r: seq<T>)
    ensures |r| <= 1
  {
    if o.Some? then [o.value] else []
  }

  /** The tested weights for one comfort and energy weight, over the smoothing weights in order. */
  function Cell(c: real, e: real, ss: seq<real>): (r: seq<Weights>)
    ensures |r| <= |ss|
  {
    if |ss| == 0 then [] else Cell(c, e, ss[..|ss| - 1]) + OptionSeq(Combo(c, e, ss[|ss| - 1]))
  }

  /** The tested weights for one comfort weight, over the energy weights in order. */
  function Row(c: real, es: seq<real>, ss: seq<real>): (r: seq<Weights>)
  {
    if |es| == 0 then [] else Row(c, es[..|es| - 1], ss) + Cell(c, es[|es| - 1], ss)
  }

  /** Every tested weight set, in the order of the three nested loops. */
  function Candidates(cs: seq<real>, es: seq<real>, ss: seq<real>): (r: seq<Weights>)
  {
    if |cs| == 0 then [] else Candidates(cs[..|cs| - 1], es, ss) + Row(cs[|cs| - 1], es, ss)
  }

  lemma AddOneMore(a: nat, n: nat)
    requires a > 0
    ensures (a - 1) * n + n == a * n
  {
  }

  lemma {:induction false} RowLength(c: real, es: seq<real>, ss: seq<real>)
    ensures |Row(c, es, ss)| <= |es| * |ss|
  {
    if |es| > 0 {
      RowLength(c, es[..|es| - 1], ss);
      AddOneMore(|es|, |ss|);
    }
  }

  /** At most one test per combination of the three grids. */
  lemma {:induction false} CandidatesLength(cs: seq<real>, es: seq<real>, ss: seq<real>)
    ensures |Candidates(cs, es, ss)| <= |cs| * (|es| * |ss|)
  {
    if |cs| > 0 {
      CandidatesLength(cs[..|cs| - 1], es, ss);
      RowLength(cs[|cs| - 1], es, ss);
      AddOneMore(|cs|, |es| * |ss|);
    }
  }

  lemma {:induction false} CellNormalised(c: real, e: real, ss: seq<real>)
    ensures forall w :: w in Cell(c, e, ss) ==> w.comfort + w.energy + w.smooth == 1.0
  {
    if |ss| > 0 {
      CellNormalised(c, e, ss[..|ss| - 1]);
    }
  }

  lemma {:induction false} RowNormalised(c: real, es: seq<real>, ss: seq<real>)
    ensures forall w :: w in Row(c, es, ss) ==> w.comfort + w.energy + w.smooth == 1.0
  {
    if |es| > 0 {
      RowNormalised(c, es[..|es| - 1], ss);
      CellNormalised(c, es[|es| - 1], ss);
    }
  }

  /** Every tested weight set is normalised: its three weights sum to exactly 1. */
  lemma {:induction false} CandidatesNormalised(cs: seq<real>, es: seq<real>, ss: seq<real>)
    ensures forall w :: w in Candidates(cs, es, ss) ==> w.comfort + w.energy + w.smooth == 1.0
  {
    if |cs| > 0 {
      CandidatesNormalised(cs[..|cs| - 1], es, ss);
      RowNormalised(cs[|cs| - 1], es, ss);
    }
  }

  /** A weight set together with what evaluating it measured. */
  function Evaluate(evaluate: Weights -> Metrics, w: Weights): TuningResult
  {
    var m := evaluate(w);
    TuningResult(w, m.rmse, m.totalEnergy, m.smoothness, m.costValue)
  }

  function EvaluateAll(evaluate: Weights -> Metrics, ws: seq<Weights>): (r: seq<TuningResult>)
    ensures |r| == |ws| && forall i :: 0 <= i < |ws| ==> r[i] == Evaluate(evaluate, ws[i])
  {
    seq(|ws|, i requires 0 <= i < |ws| => Evaluate(evaluate, ws[i]))
  }

  predicate SortedByScore(s: seq<TuningResult>)
  {
    forall i, j :: 0 <= i < j < |s| ==> s[i].Score() <= s[j].Score()
  }

  /** Inserts `x` before the first element with a larger score (after any equal ones). */
  function InsertByScore(x: TuningResult, s: seq<TuningResult>): (r: seq<TuningResult>)
    ensures multiset(r) == multiset(s) + multiset{x} && |r| == |s| + 1
  {
    if |s| == 0 then [x]
    else if x.Score() < s[0].Score() then [x] + s
    else
      assert s == [s[0]] + s[1..];
      [s[0]] + InsertByScore(x, s[1..])
  }

  lemma {:induction false} InsertKeepsSorted(x: TuningResult, s: seq<TuningResult>)
    requires SortedByScore(s)
    ensures SortedByScore(InsertByScore(x, s))
  {
    if |s| > 0 && x.Score() >= s[0].Score() {
      var tail := InsertByScore(x, s[1..]);
      InsertKeepsSorted(x, s[1..]);
      forall i | 0 <= i < |tail| ensures s[0].Score() <= tail[i].Score() {
        assert tail[i] in multiset(tail);
        if tail[i] != x {
          assert tail[i] in multiset(s[1..]);
          var k :| 0 <= k < |s[1..]| && s[1..][k] == tail[i];
          assert s[k + 1] == tail[i];
        }
      }
    }
  }

  /** `results.sort(key=score)`: non-decreasing scores, same results. */
  function SortByScore(s: seq<TuningResult>): (r: seq<TuningResult>)
    ensures multiset(r) == multiset(s) && |r| == |s|
  {
    if |s| == 0 then []
    else
      assert s == s[..|s| - 1] + [s[|s| - 1]];
      InsertByScore(s[|s| - 1], SortByScore(s[..|s| - 1]))
  }

  lemma {:induction false} SortIsSorted(s: seq<TuningResult>)
    ensures SortedByScore(SortByScore(s))
  {
    if |s| > 0 {
      SortIsSorted(s[..|s| - 1]);
      InsertKeepsSorted(s[|s| - 1], SortByScore(s[..|s| - 1]));
    }
  }

  /** The results whose score is `t`, in their order in `s`. */
  function WithScore(s: seq<TuningResult>, t: real): (r: seq<TuningResult>)
    ensures |r| <= |s|
    ensures forall x :: x in r ==> x in s && x.Score() == t
  {
    if |s| == 0 then []
    else (if s[0].Score() == t then [s[0]] else []) + WithScore(s[1..], t)
  }

  lemma {:induction false} WithScoreAppend(a: seq<TuningResult>, b: seq<TuningResult>, t: real)
    ensures WithScore(a + b, t) == WithScore(a, t) + WithScore(b, t)
  {
    if |a| > 0 {
      assert (a + b)[0] == a[0];
      assert (a + b)[1..] == a[1..] + b;
      WithScoreAppend(a[1..], b, t);
    } else {
      assert a + b == b;
    }
  }

  lemma {:induction false} NoneWithScore(s: seq<TuningResult>, t: real)
    requires forall i :: 0 <= i < |s| ==> s[i].Score() > t
    ensures WithScore(s, t) == []
  {
    if |s| > 0 {
      NoneWithScore(s[1..], t);
    }
  }

  /** Inserting into a sorted list puts `x` after every result with its score. */
  lemma {:induction false} InsertIsStable(x: TuningResult, s: seq<TuningResult>, t: real)
    requires SortedByScore(s)
    ensures WithScore(InsertByScore(x, s), t) == WithScore(s, t) + (if x.Score() == t then [x] else [])
  {
    if |s| == 0 {
    } else if x.Score() < s[0].Score() {
      var r := [x] + s;
      assert r[0] == x && r[1..] == s;
      if x.Score() == t {
        NoneWithScore(s, t);
      }
    } else {
      var tail := InsertByScore(x, s[1..]);
      var r := [s[0]] + tail;
      assert r[0] == s[0] && r[1..] == tail;
      InsertIsStable(x, s[1..], t);
    }
  }

  lemma StableStep(sorted: seq<TuningResult>, init: seq<TuningResult>, last: TuningResult, t: real)
    requires SortedByScore(sorted) && WithScore(sorted, t) == WithScore(init, t)
    ensures WithScore(InsertByScore(last, sorted), t) == WithScore(init + [last], t)
  {
    InsertIsStable(last, sorted, t);
    assert [last][1..] == [];
    WithScoreAppend(init, [last], t);
  }

  /** Python's sort is stable: results with equal scores keep their order. */
  lemma {:induction false} SortIsStable(s: seq<TuningResult>, t: real)
    ensures WithScore(SortByScore(s), t) == WithScore(s, t)
  {
    if |s| > 0 {
      var init, last := s[..|s| - 1], s[|s| - 1];
      assert s == init + [last];
      var sorted := SortByScore(init);
      assert SortByScore(s) == InsertByScore(last, sorted);
      SortIsSorted(init);
      SortIsStable(init, t);
      StableStep(sorted, init, last, t);
    }
  }

  lemma EvaluateAllAppend(evaluate: Weights -> Metrics, a: seq<Weights>, b: seq<Weights>)
    ensures EvaluateAll(evaluate, a + b) == EvaluateAll(evaluate, a) + EvaluateAll(evaluate, b)
  {
  }

  lemma EvaluateAllSnoc(evaluate: Weights -> Metrics, ws: seq<Weights>, w: Weights)
    ensures EvaluateAll(evaluate, ws + [w]) == EvaluateAll(evaluate, ws) + [Evaluate(evaluate, w)]
  {
  }

  /**
   * `grid_search`: the three nested loops test every grid point whose sum
   * is in range, normalised; the results are then sorted by score.
   */
  method GridSearch(cs: seq<real>, es: seq<real>, ss: seq<real>, evaluate: Weights -> Metrics)
    returns (results: seq<TuningResult>)
    ensures multiset(results) == multiset(EvaluateAll(evaluate, Candidates(cs, es, ss)))
    ensures SortedByScore(results)
    ensures forall t :: WithScore(results, t) == WithScore(EvaluateAll(evaluate, Candidates(cs, es, ss)), t)
    ensures |results| <= |cs| * (|es| * |ss|)
    ensures forall r :: r in results ==> r.weights.comfort + r.weights.energy + r.weights.smooth == 1.0
  {
    var unsorted := TestGrid(cs, es, ss, evaluate);
    SearchResultsNormalised(evaluate, cs, es, ss);
    CandidatesLength(cs, es, ss);
    results := SortByScore(unsorted);
    SortIsSorted(unsorted);
    forall t {
      SortIsStable(unsorted, t);
    }
    assert forall r :: r in results ==> r in multiset(unsorted);
  }

  lemma CellStep(c: real, e: real, ss: seq<real>, k: nat)
    requires k < |ss|
    ensures Cell(c, e, ss[..k + 1]) == Cell(c, e, ss[..k]) + OptionSeq(Combo(c, e, ss[k]))
  {
    assert ss[..k + 1][..k] == ss[..k];
  }

  lemma RowStep(c: real, es: seq<real>, ss: seq<real>, j: nat)
    requires j < |es|
    ensures Row(c, es[..j + 1], ss) == Row(c, es[..j], ss) + Cell(c, es[j], ss)
  {
    assert es[..j + 1][..j] == es[..j];
  }

  lemma CandidatesStep(cs: seq<real>, es: seq<real>, ss: seq<real>, i: nat)
    requires i < |cs|
    ensures Candidates(cs[..i + 1], es, ss) == Candidates(cs[..i], es, ss) + Row(cs[i], es, ss)
  {
    assert cs[..i + 1][..i] == cs[..i];
  }

  /** The outer loop of `grid_search` (over comfort weights), before sorting. */
  method TestGrid(cs: seq<real>, es: seq<real>, ss: seq<real>, evaluate: Weights -> Metrics)
    returns (results: seq<TuningResult>)
    ensures results == EvaluateAll(evaluate, Candidates(cs, es, ss))
  {
    results := [];
    for i := 0 to |cs|
      invariant results == EvaluateAll(evaluate, Candidates(cs[..i], es, ss))
    {
      var row := TestRow(cs[i], es, ss, evaluate);
      EvaluateAllAppend(evaluate, Candidates(cs[..i], es, ss), Row(cs[i], es, ss));
      results := results + row;
      CandidatesStep(cs, es, ss, i);
    }
    assert cs[..|cs|] == cs;
  }

  /** The middle loop of `grid_search` (over energy weights) for one comfort weight. */
  method TestRow(wc: real, es: seq<real>, ss: seq<real>, evaluate: Weights -> Metrics)
    returns (results: seq<TuningResult>)
    ensures results == EvaluateAll(evaluate, Row(wc, es, ss))
  {
    results := [];
    for j := 0 to |es|
      invariant results == EvaluateAll(evaluate, Row(wc, es[..j], ss))
    {
      var cell := TestCell(wc, es[j], ss, evaluate);
      EvaluateAllAppend(evaluate, Row(wc, es[..j], ss), Cell(wc, es[j], ss));
      results := results + cell;
      RowStep(wc, es, ss, j);
    }
    assert es[..|es|] == es;
  }

  /**
   * The inner loop of `grid_search` (over smoothing weights): a combination
   * whose sum is outside [0.95, 1.05] is skipped, the others are normalised
   * and evaluated.
   */
  method TestCell(wc: real, we: real, ss: seq<real>, evaluate: Weights -> Metrics)
    returns (results: seq<TuningResult>)
    ensures results == EvaluateAll(evaluate, Cell(wc, we, ss))
  {
    results := [];
    for k := 0 to |ss|
      invariant results == EvaluateAll(evaluate, Cell(wc, we, ss[..k]))
    {
      var ws := ss[k];
      CellStep(wc, we, ss, k);
      var weightSum := wc + we + ws;
      if !(0.95 <= weightSum <= 1.05) {
        continue;
      }
      var total := wc + we + ws;
      var weights := Weights(wc / total, we / total, ws / total);
      EvaluateAllSnoc(evaluate, Cell(wc, we, ss[..k]), weights);
      results := results + [Evaluate(evaluate, weights)];
    }
    assert ss[..|ss|] == ss;
  }

  /** Every evaluated result carries normalised weights. */
  lemma {:induction false} SearchResultsNormalised(evaluate: Weights -> Metrics, cs: seq<real>, es: seq<real>, ss: seq<real>)
    ensures forall r :: r in EvaluateAll(evaluate, Candidates(cs, es, ss)) ==>
      r.weights.comfort + r.weights.energy + r.weights.smooth == 1.0
  {
    var tested := Candidates(cs, es, ss);
    var results := EvaluateAll(evaluate, tested);
    CandidatesNormalised(cs, es, ss);
    forall r | r in results ensures r.weights.comfort + r.weights.energy + r.weights.smooth == 1.0 {
      var n :| 0 <= n < |results| && results[n] == r;
      assert r.weights == tested[n];
    }
  }

  /** The attributes `find_pareto_optimal` may compare by name. */
  datatype Objective = Rmse | TotalEnergy | Smoothness | CostValue | ScoreObjective

  function Value(r: TuningResult, o: Objective): real
  {
    match o
    case Rmse => r.rmse
    case TotalEnergy => r.totalEnergy
    case Smoothness => r.smoothness
    case CostValue => r.costValue
    case ScoreObjective => r.Score()
  }

  /** `y` is at least as good as `x` in both objectives and strictly better in one. */
  predicate Dominates(y: TuningResult, x: TuningResult, o1: Objective, o2: Objective)
  {
    Value(y, o1) <= Value(x, o1) && Value(y, o2) <= Value(x, o2) &&
    (Value(y, o1) < Value(x, o1) || Value(y, o2) < Value(x, o2))
  }

  /** No result of `all` that differs from `x` dominates it. */
  predicate ParetoOptimal(x: TuningResult, all: seq<TuningResult>, o1: Objective, o2: Objective)
  {
    forall j :: 0 <= j < |all| && all[j] != x ==> !Dominates(all[j], x, o1, o2)
  }

  /** The results of `prefix` that are Pareto-optimal within `all`, in order. */
  function ParetoFilter(prefix: seq<TuningResult>, all: seq<TuningResult>, o1: Objective, o2: Objective): (r: seq<TuningResult>)
    ensures forall x :: x in r <==> x in prefix && ParetoOptimal(x, all, o1, o2)
  {
    if |prefix| == 0 then []
    else
      var x := prefix[|prefix| - 1];
      assert prefix == prefix[..|prefix| - 1] + [x];
      ParetoFilter(prefix[..|prefix| - 1], all, o1, o2) + (if ParetoOptimal(x, all, o1, o2) then [x] else [])
  }

  /** `a` is `b` with some elements dropped, the rest in their order. */
  predicate Subsequence(a: seq<TuningResult>, b: seq<TuningResult>)
    decreases |b|
  {
    if |a| == 0 then true
    else if |b| == 0 then false
    else if a[|a| - 1] == b[|b| - 1] then Subsequence(a[..|a| - 1], b[..|b| - 1])
    else Subsequence(a, b[..|b| - 1])
  }

  lemma {:induction false} ParetoFilterIsSubsequence(prefix: seq<TuningResult>, all: seq<TuningResult>, o1: Objective, o2: Objective)
    ensures Subsequence(ParetoFilter(prefix, all, o1, o2), prefix)
  {
    if |prefix| > 0 {
      ParetoFilterIsSubsequence(prefix[..|prefix| - 1], all, o1, o2);
      var x := prefix[|prefix| - 1];
      var front := ParetoFilter(prefix[..|prefix| - 1], all, o1, o2);
      if ParetoOptimal(x, all, o1, o2) {
        assert (front + [x])[..|front|] == front;
      } else if |front| > 0 {
        assert ParetoFilter(prefix, all, o1, o2) == front;
        assert front[|front| - 1] in front;
        assert front[|front| - 1] != x;
      }
    }
  }

  /** Index of a result that is lexicographically smallest in (o1, o2). */
  function LexMinIndex(s: seq<TuningResult>, o1: Objective, o2: Objective): (i: nat)
    requires |s| > 0
    ensures i < |s|
    ensures forall j :: 0 <= j < |s| ==>
      Value(s[i], o1) < Value(s[j], o1) ||
      (Value(s[i], o1) == Value(s[j], o1) && Value(s[i], o2) <= Value(s[j], o2))
  {
    if |s| == 1 then 0
    else
      var i := LexMinIndex(s[..|s| - 1], o1, o2);
      assert forall j :: 0 <= j < |s| - 1 ==> s[..|s| - 1][j] == s[j];
      var last := s[|s| - 1];
      if Value(last, o1) < Value(s[i], o1) || (Value(last, o1) == Value(s[i], o1) && Value(last, o2) < Value(s[i], o2))
      then |s| - 1
      else i
  }

  /** A non-empty input always has a Pareto-optimal member: its lexicographic minimum. */
  lemma {:induction false} ParetoNonEmpty(all: seq<TuningResult>, o1: Objective, o2: Objective)
    requires |all| > 0
    ensures |ParetoFilter(all, all, o1, o2)| > 0
  {
    var i := LexMinIndex(all, o1, o2);
    assert ParetoOptimal(all[i], all, o1, o2);
    assert all[i] in ParetoFilter(all, all, o1, o2);
  }

  /** The inner loop of `find_pareto_optimal`: does any different result dominate `r1`? */
  method IsDominated(r1: TuningResult, results: seq<TuningResult>, o1: Objective, o2: Objective) returns (isDominated: bool)
    ensures isDominated <==> !ParetoOptimal(r1, results, o1, o2)
  {
    isDominated := false;
    var j := 0;
    while j < |results|
      invariant 0 <= j <= |results| && !isDominated
      invariant forall m :: 0 <= m < j && results[m] != r1 ==> !Dominates(results[m], r1, o1, o2)
    {
      var r2 := results[j];
      if r1 == r2 {
        j := j + 1;
        continue;
      }
      if Value(r2, o1) <= Value(r1, o1) && Value(r2, o2) <= Value(r1, o2) &&
         (Value(r2, o1) < Value(r1, o1) || Value(r2, o2) < Value(r1, o2)) {
        assert Dominates(results[j], r1, o1, o2);
        isDominated := true;
        break;
      }
      j := j + 1;
    }
  }

  /**
   * `find_pareto_optimal`: keeps, in order, each result that no different
   * result dominates (equal results are skipped in the comparison).
   */
  method FindParetoOptimal(results: seq<TuningResult>, o1: Objective, o2: Objective) returns (pareto: seq<TuningResult>)
    ensures pareto == ParetoFilter(results, results, o1, o2)
    ensures forall x :: x in pareto <==> x in results && ParetoOptimal(x, results, o1, o2)
    ensures Subsequence(pareto, results)
    ensures |results| > 0 ==> |pareto| > 0
  {
    pareto := [];
    for i := 0 to |results|
      invariant pareto == ParetoFilter(results[..i], results, o1, o2)
    {
      var r1 := results[i];
      var isDominated := IsDominated(r1, results, o1, o2);
      assert results[..i + 1][..i] == results[..i];
      if !isDominated {
        pareto := pareto + [r1];
      }
    }
    assert results[..|results|] == results;
    ParetoFilterIsSubsequence(results, results, o1, o2);
    if |results| > 0 {
      ParetoNonEmpty(results, o1, o2);
    }
  }

  /** Index of the first result with the smallest value of `o` (Python's `min` keeps the first). */
  function ArgMin(s: seq<TuningResult>, o: Objective): (i: nat)
    requires |s| > 0
    ensures i < |s|
    ensures forall j :: 0 <= j < |s| ==> Value(s[i], o) <= Value(s[j], o)
    ensures forall j :: 0 <= j < i ==> Value(s[j], o) > Value(s[i], o)
  {
    if |s| == 1 then 0
    else
      var i := ArgMin(s[..|s| - 1], o);
      assert forall j :: 0 <= j < |s| - 1 ==> s[..|s| - 1][j] == s[j];
      if Value(s[|s| - 1], o) < Value(s[i], o) then |s| - 1 else i
  }

  datatype Preference = Comfort | Energy | Balanced

  /**
   * `recommend_parameters`: the default weights without results; else the
   * weights of the first minimum-RMSE result for comfort, of the first
   * minimum-energy result for energy, and of the first (best-scored) result
   * otherwise.
   */
  function RecommendParameters(results: seq<TuningResult>, preference: Preference): (w: Weights)
    ensures |results| == 0 ==> w == DEFAULT_WEIGHTS
    ensures |results| > 0 ==> exists i :: (0 <= i < |results| && results[i].weights == w &&
      (preference.Comfort? ==> forall j :: 0 <= j < |results| ==> results[i].rmse <= results[j].rmse) &&
      (preference.Energy? ==> forall j :: 0 <= j < |results| ==> results[i].totalEnergy <= results[j].totalEnergy) &&
      (preference.Balanced? ==> i == 0))
  {
    if |results| == 0 then DEFAULT_WEIGHTS
    else
      var i := match preference
        case Comfort => ArgMin(results, Rmse)
        case Energy => ArgMin(results, TotalEnergy)
        case Balanced => 0;
      results[i].weights
  }

  /**
   * After a grid search, the balanced recommendation is a best-scored
   * result's weights and every recommendation is normalised.
   */
  lemma {:induction false} RecommendationFromSearch(results: seq<TuningResult>, preference: Preference)
    requires |results| > 0 && SortedByScore(results)
    requires forall r :: r in results ==> r.weights.comfort + r.weights.energy + r.weights.smooth == 1.0
    ensures var w := RecommendParameters(results, preference);
      w.comfort + w.energy + w.smooth == 1.0 &&
      (preference.Balanced? ==> forall r :: r in results ==> results[0].Score() <= r.Score() && w == results[0].weights)
  {
    var w := RecommendParameters(results, preference);
    var i :| 0 <= i < |results| && results[i].weights == w &&
      (preference.Balanced? ==> i == 0);
    assert results[i] in results;
    if preference.Balanced? {
      forall r | r in results ensures results[0].Score() <= r.Score() {
        var k :| 0 <= k < |results| && results[k] == r;
      }
    }
  }
}

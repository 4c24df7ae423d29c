/**
 * Recursive least squares (RLS) with a forgetting factor λ, estimating the
 * discrete-time parameters θ = [a, b, c] of
 *
 *   T(k) = a·T(k−1) + b·P_heating(k−1) + c·T_out(k−1)
 *
 * from which the 1R1C parameters are recovered as R = b/c and
 * C = −dt/(R·ln a).
 */
module Estimator {
  import opened Base
  import Thermal

  const FORGETTING_FACTOR_DEFAULT: real := 0.98
  const INITIAL_COVARIANCE: real := 1000.0
  /** Below this magnitude the RLS denominator is treated as zero and the update skipped. */
  const DENOMINATOR_EPSILON: real := 0.0000000001

  /** The start-up guess used when no parameters are given and after a reset. */
  const R_INITIAL: real := 0.002
  const C_INITIAL: real := 4500000.0

  function Dot(x: seq<real>, y: seq<real>): real
    requires |x| == 3 && |y| == 3
  {
    x[0] * y[0] + x[1] * y[1] + x[2] * y[2]
  }

  predicate IsMatrix(M: seq<seq<real>>)
  {
    |M| == 3 && forall i :: 0 <= i < 3 ==> |M[i]| == 3
  }

  predicate Symmetric(M: seq<seq<real>>)
    requires IsMatrix(M)
  {
    forall i, j :: 0 <= i < 3 && 0 <= j < 3 ==> M[i][j] == M[j][i]
  }

  /** P·x */
  function MatVec(M: seq<seq<real>>, x: seq<real>): (y: seq<real>)
    requires IsMatrix(M) && |x| == 3
    ensures |y| == 3
  {
    [Dot(M[0], x), Dot(M[1], x), Dot(M[2], x)]
  }

  /** The RLS state: parameter vector, covariance, counted updates and last prediction error. */
  datatype RlsState = RlsState(theta: seq<real>, P: seq<seq<real>>, nUpdates: nat, lastError: real)
  {
    predicate WellShaped()
    {
      |theta| == 3 && IsMatrix(P)
    }
  }

  /** A fresh state: θ = 0, P = 1000·I, no updates, no error. */
  function InitialState(): (s: RlsState)
    ensures s.WellShaped() && Symmetric(s.P)
  {
    var z := INITIAL_COVARIANCE;
    RlsState([0.0, 0.0, 0.0], [[z, 0.0, 0.0], [0.0, z, 0.0], [0.0, 0.0, z]], 0, 0.0)
  }

  /** The initial covariance is positive semidefinite: φᵀP₀φ = 1000·|φ|² ≥ 0. */
  lemma InitialCovariancePositive(x: seq<real>)
    requires |x| == 3
    ensures Dot(x, MatVec(InitialState().P, x)) == INITIAL_COVARIANCE * (x[0] * x[0] + x[1] * x[1] + x[2] * x[2])
    ensures Dot(x, MatVec(InitialState().P, x)) >= 0.0
  {
    var z := INITIAL_COVARIANCE;
    var P0 := InitialState().P;
    var y := MatVec(P0, x);
    assert y[0] == z * x[0] && y[1] == z * x[1] && y[2] == z * x[2];
    SquareNonNegative(x[0]);
    SquareNonNegative(x[1]);
    SquareNonNegative(x[2]);
  }

  /** θ = [a, b, c] of the discrete model with the given R and C. */
  function ThetaFromParameters(p: Thermal.Parameters, dt: real, libm: Libm): (theta: seq<real>)
    requires p.R * p.C != 0.0
    ensures |theta| == 3
  {
    var a := Thermal.DecayFactor(p, dt, libm);
    [a, p.R * (1.0 - a), 1.0 - a]
  }

  /** For valid parameters θ is exactly the room model's (A, B, Bd). */
  lemma {:induction false} ThetaMatchesDiscretization(p: Thermal.Parameters, dt: real, libm: Libm)
    requires p.Validate()
    ensures p.R * p.C != 0.0
    ensures var c := Thermal.Discretize(p, dt, libm);
      ThetaFromParameters(p, dt, libm) == [c.A, c.B, c.Bd]
  {
    MulPositive(p.R, p.C);
  }

  function DefaultParameters(): Thermal.Parameters
  {
    Thermal.Parameters(R_INITIAL, C_INITIAL)
  }

  /** `_predict_from_theta`: a·T + b·P_heating + c·T_out. */
  function PredictFromTheta(theta: seq<real>, T: real, Pheat: real, Tout: real): real
    requires |theta| == 3
  {
    theta[0] * T + theta[1] * Pheat + theta[2] * Tout
  }

  /** The covariance update (P − K·(Pφ)ᵀ)/λ. */
  function CovarianceUpdate(P: seq<seq<real>>, K: seq<real>, Pphi: seq<real>, lambda: real): (P': seq<seq<real>>)
    requires IsMatrix(P) && |K| == 3 && |Pphi| == 3 && lambda != 0.0
    ensures IsMatrix(P')
  {
    seq(3, i requires 0 <= i < 3 => seq(3, j requires 0 <= j < 3 => CovarianceEntry(P, K, Pphi, lambda, i, j)))
  }

  function CovarianceEntry(P: seq<seq<real>>, K: seq<real>, Pphi: seq<real>, lambda: real, i: nat, j: nat): real
    requires IsMatrix(P) && |K| == 3 && |Pphi| == 3 && lambda != 0.0 && i < 3 && j < 3
  {
    (P[i][j] - K[i] * Pphi[j]) / lambda
  }

  /** The gain K = Pφ/denominator. */
  function Gain(Pphi: seq<real>, d: real): (K: seq<real>)
    requires |Pphi| == 3 && d != 0.0
    ensures |K| == 3
  {
    [Pphi[0] / d, Pphi[1] / d, Pphi[2] / d]
  }

  /** θ + K·e */
  function ThetaUpdate(theta: seq<real>, K: seq<real>, e: real): (theta': seq<real>)
    requires |theta| == 3 && |K| == 3
    ensures |theta'| == 3
  {
    [theta[0] + K[0] * e, theta[1] + K[1] * e, theta[2] + K[2] * e]
  }

  /** The regressor φ = [T_previous, P_heating, T_outdoor], with a missing T_previous predicted from θ. */
  function Regressor(s: RlsState, Tmeas: real, Tout: real, Pheat: real, Tprev: Option<real>): (phi: seq<real>)
    requires s.WellShaped()
    ensures |phi| == 3
  {
    var tp := if Tprev.Some? then Tprev.value else PredictFromTheta(s.theta, Tmeas, Pheat, Tout);
    [tp, Pheat, Tout]
  }

  /**
   * The correction once the regressor φ and the prediction error e are
   * known: the error is recorded; a denominator λ + φᵀPφ below 1e-10 in
   * magnitude stops there, otherwise θ and P are updated with the gain
   * K = Pφ/(λ + φᵀPφ) and the update is counted.
   */
  function Correct(s: RlsState, lambda: real, phi: seq<real>, e: real): (s': RlsState)
    requires s.WellShaped() && lambda > 0.0 && |phi| == 3
    ensures s'.WellShaped()
  {
    var Pphi := MatVec(s.P, phi);
    var d := lambda + Dot(phi, Pphi);
    if Abs(d) < DENOMINATOR_EPSILON then
      s.(lastError := e)
    else
      var K := Gain(Pphi, d);
      RlsState(ThetaUpdate(s.theta, K, e), CovarianceUpdate(s.P, K, Pphi, lambda), s.nUpdates + 1, e)
  }

  /**
   * One RLS update (`update`), returning the new state and the reported
   * prediction error.
   */
  function RlsUpdate(s: RlsState, lambda: real, Tmeas: real, Tout: real, Pheat: real, Tprev: Option<real>): (r: (RlsState, real))
    requires s.WellShaped() && lambda > 0.0
    ensures r.0.WellShaped()
  {
    if Tprev.None? && s.nUpdates == 0 then
      (s, 0.0)
    else
      var phi := Regressor(s, Tmeas, Tout, Pheat, Tprev);
      var e := Tmeas - Dot(phi, s.theta);
      (Correct(s, lambda, phi, e), e)
  }

  /** Whether an update call reaches the parameter update (neither skip case). */
  predicate Applies(s: RlsState, lambda: real, Tmeas: real, Tout: real, Pheat: real, Tprev: Option<real>)
    requires s.WellShaped()
  {
    !(Tprev.None? && s.nUpdates == 0) &&
    var phi := Regressor(s, Tmeas, Tout, Pheat, Tprev);
    Abs(lambda + Dot(phi, MatVec(s.P, phi))) >= DENOMINATOR_EPSILON
  }

  /**
   * The two skip cases: before any counted update a call without a previous
   * temperature changes nothing and reports error 0; a near-zero
   * denominator records the error but keeps θ, P and the counter.
   * Otherwise the counter grows by exactly one and the error is
   * T_measured − φᵀθ.
   */
  lemma {:induction false} UpdateCases(s: RlsState, lambda: real, Tmeas: real, Tout: real, Pheat: real, Tprev: Option<real>)
    requires s.WellShaped() && lambda > 0.0
    ensures var (s', e) := RlsUpdate(s, lambda, Tmeas, Tout, Pheat, Tprev);
      var phi := Regressor(s, Tmeas, Tout, Pheat, Tprev);
      (Tprev.None? && s.nUpdates == 0 ==> s' == s && e == 0.0) &&
      (!(Tprev.None? && s.nUpdates == 0) ==> e == Tmeas - Dot(phi, s.theta) && s'.lastError == e) &&
      (!(Tprev.None? && s.nUpdates == 0) && !Applies(s, lambda, Tmeas, Tout, Pheat, Tprev) ==>
        s'.theta == s.theta && s'.P == s.P && s'.nUpdates == s.nUpdates) &&
      (Applies(s, lambda, Tmeas, Tout, Pheat, Tprev) ==> s'.nUpdates == s.nUpdates + 1)
  {
  }

  /** A symmetric covariance stays symmetric, since K·(Pφ)ᵀ = (Pφ)(Pφ)ᵀ/denominator. */
  lemma {:induction false} CovarianceStaysSymmetric(s: RlsState, lambda: real, Tmeas: real, Tout: real, Pheat: real, Tprev: Option<real>)
    requires s.WellShaped() && lambda > 0.0 && Symmetric(s.P)
    ensures Symmetric(RlsUpdate(s, lambda, Tmeas, Tout, Pheat, Tprev).0.P)
  {
    if Applies(s, lambda, Tmeas, Tout, Pheat, Tprev) {
      var phi := Regressor(s, Tmeas, Tout, Pheat, Tprev);
      var Pphi := MatVec(s.P, phi);
      var d := lambda + Dot(phi, Pphi);
      GainUpdateSymmetric(s.P, Pphi, d, lambda);
    }
  }

  lemma GainUpdateSymmetric(P: seq<seq<real>>, Pphi: seq<real>, d: real, lambda: real)
    requires IsMatrix(P) && Symmetric(P) && |Pphi| == 3 && d != 0.0 && lambda != 0.0
    ensures Symmetric(CovarianceUpdate(P, Gain(Pphi, d), Pphi, lambda))
  {
    var K := Gain(Pphi, d);
    var P' := CovarianceUpdate(P, K, Pphi, lambda);
    forall i, j | 0 <= i < 3 && 0 <= j < 3
      ensures P'[i][j] == P'[j][i]
    {
      GainProductSymmetric(Pphi[i], Pphi[j], d);
      assert K[i] == Pphi[i] / d && K[j] == Pphi[j] / d;
    }
  }

  lemma GainProductSymmetric(x: real, y: real, d: real)
    requires d != 0.0
    ensures (x / d) * y == (y / d) * x
  {
  }

  /**
   * After an applied update the error on the same regressor is the prior
   * error scaled by λ/(λ + φᵀPφ); with φᵀPφ ≥ 0 (as for the initial
   * covariance) the update never increases the error's magnitude.
   */
  lemma {:induction false} PosteriorError(s: RlsState, lambda: real, Tmeas: real, Tout: real, Pheat: real, Tprev: Option<real>)
    requires s.WellShaped() && lambda > 0.0
    requires Applies(s, lambda, Tmeas, Tout, Pheat, Tprev)
    ensures var phi := Regressor(s, Tmeas, Tout, Pheat, Tprev);
      var (s', e) := RlsUpdate(s, lambda, Tmeas, Tout, Pheat, Tprev);
      var q := Dot(phi, MatVec(s.P, phi));
      Tmeas - Dot(phi, s'.theta) == e * (lambda / (lambda + q)) &&
      (q >= 0.0 ==> Abs(Tmeas - Dot(phi, s'.theta)) <= Abs(e))
  {
    var phi := Regressor(s, Tmeas, Tout, Pheat, Tprev);
    var Pphi := MatVec(s.P, phi);
    var q := Dot(phi, Pphi);
    var d := lambda + q;
    var e := Tmeas - Dot(phi, s.theta);
    var K := Gain(Pphi, d);
    var theta' := ThetaUpdate(s.theta, K, e);
    assert RlsUpdate(s, lambda, Tmeas, Tout, Pheat, Tprev).0.theta == theta';
    GainAlongRegressor(phi, s.theta, Pphi, d, e);
    ScaledError(e, lambda, q);
  }

  /** φ·(θ + K·e) = φ·θ + e·(φ·Pφ)/d */
  lemma GainAlongRegressor(phi: seq<real>, theta: seq<real>, Pphi: seq<real>, d: real, e: real)
    requires |phi| == 3 && |theta| == 3 && |Pphi| == 3 && d != 0.0
    ensures Dot(phi, ThetaUpdate(theta, Gain(Pphi, d), e)) == Dot(phi, theta) + e * (Dot(phi, Pphi) / d)
  {
    var K := Gain(Pphi, d);
    var t' := ThetaUpdate(theta, K, e);
    assert t'[0] == theta[0] + K[0] * e && t'[1] == theta[1] + K[1] * e && t'[2] == theta[2] + K[2] * e;
    assert phi[0] * K[0] + phi[1] * K[1] + phi[2] * K[2] == Dot(phi, Pphi) / d;
  }

  lemma ScaledError(e: real, lambda: real, q: real)
    requires lambda > 0.0 && lambda + q != 0.0
    ensures e - e * (q / (lambda + q)) == e * (lambda / (lambda + q))
    ensures q >= 0.0 ==> Abs(e * (lambda / (lambda + q))) <= Abs(e)
  {
    var d := lambda + q;
    assert q / d + lambda / d == 1.0;
    if q >= 0.0 {
      var f := lambda / d;
      assert 0.0 < f <= 1.0;
      Base.MulNonNegative(Abs(e), 1.0 - f);
      if e >= 0.0 {
        Base.MulNonNegative(e, f);
      } else {
        Base.MulNonNegative(-e, f);
      }
    }
  }

  /**
   * Extraction of (R, C) from θ = [a, b, c] (`get_thermal_parameters`):
   * rejected unless 0 < a < 1, b > 0, 0 < c < 1 and ln a < 0; an
   * inconsistent c versus 1 − a is only reported. Any result has R = b/c and
   * passes validation.
   */
  function ExtractParameters(theta: seq<real>, dt: real, libm: Libm): (r: Option<Thermal.Parameters>)
    requires |theta| == 3
    ensures r.Some? ==> r.value.Validate() && theta[2] > 0.0 && r.value.R == theta[1] / theta[2]
    ensures r.Some? <==>
      (0.0 < theta[0] < 1.0 && theta[1] > 0.0 && 0.0 < theta[2] < 1.0 && Ln(libm, theta[0]) < 0.0 && dt > 0.0)
  {
    var a, b, c := theta[0], theta[1], theta[2];
    if !(0.0 < a < 1.0) then None
    else if !(b > 0.0) then None
    else if !(0.0 < c < 1.0) then None
    else
      // |c − (1 − a)| > 0.1 is only reported
      var R := b / c;
      var lnA := Ln(libm, a);
      if lnA >= 0.0 then None
      else
        ExtractedCapacitySign(b, c, lnA, dt);
        var C := CapacityFromDecay(R, lnA, dt);
        var params := Thermal.Parameters(R, C);
        if !params.Validate() then None
        else Some(params)
  }

  /** C = −dt/(R·ln a), the inverse of the decay exponent. */
  function CapacityFromDecay(R: real, lnA: real, dt: real): real
    requires R * lnA != 0.0
  {
    -dt / (R * lnA)
  }

  lemma ExtractedCapacitySign(b: real, c: real, lnA: real, dt: real)
    requires b > 0.0 && c > 0.0 && lnA < 0.0
    ensures b / c > 0.0
    ensures (b / c) * lnA < 0.0
    ensures Thermal.Parameters(b / c, CapacityFromDecay(b / c, lnA, dt)).Validate() <==> dt > 0.0
  {
    var R := b / c;
    MulPositive(R, -lnA);
    assert R * lnA == -(R * -lnA);
    var m := R * -lnA;
    assert CapacityFromDecay(R, lnA, dt) == dt / m;
  }

  /**
   * Round trip: extracting the parameters from the θ of valid parameters
   * gives them back, whenever ln inverts exp at −dt/(R·C).
   */
  lemma {:induction false} ExtractInvertsTheta(p: Thermal.Parameters, dt: real, libm: Libm)
    requires p.Validate() && dt > 0.0 && ExpLawful(libm)
    requires p.R * p.C != 0.0
    requires Ln(libm, Thermal.DecayFactor(p, dt, libm)) == Thermal.DecayExponent(p, dt)
    ensures ExtractParameters(ThetaFromParameters(p, dt, libm), dt, libm) == Some(p)
  {
    var theta := ThetaFromParameters(p, dt, libm);
    var c := Thermal.Discretize(p, dt, libm);
    assert theta[0] == Thermal.DecayFactor(p, dt, libm) == c.A;
    ExtractFromConsistentTheta(theta, p.R, p.C, dt, libm);
  }

  lemma ExtractFromConsistentTheta(theta: seq<real>, R: real, C: real, dt: real, libm: Libm)
    requires |theta| == 3 && R > 0.0 && C > 0.0 && dt > 0.0
    requires 0.0 < theta[0] < 1.0 && theta[2] == 1.0 - theta[0] && theta[1] == R * theta[2]
    requires Ln(libm, theta[0]) == Thermal.DecayExponent(Thermal.Parameters(R, C), dt)
    ensures ExtractParameters(theta, dt, libm) == Some(Thermal.Parameters(R, C))
  {
    var x := Thermal.DecayExponent(Thermal.Parameters(R, C), dt);
    MulPositive(R, C);
    assert x < 0.0;
    MulPositive(R, theta[2]);
    QuotientOfProduct(R, theta[2]);
    var R' := theta[1] / theta[2];
    assert R' == R;
    ExtractAccepted(theta, dt, libm);
    CapacityRecovered(R, C, dt);
    assert CapacityFromDecay(R', Ln(libm, theta[0]), dt) == C;
  }

  lemma QuotientOfProduct(R: real, c: real)
    requires c > 0.0
    ensures (R * c) / c == R
  {
  }

  /** Under the range conditions extraction yields R = b/c and C = −dt/(R·ln a). */
  lemma ExtractAccepted(theta: seq<real>, dt: real, libm: Libm)
    requires |theta| == 3 && 0.0 < theta[0] < 1.0 && theta[1] > 0.0 && 0.0 < theta[2] < 1.0
    requires Ln(libm, theta[0]) < 0.0 && dt > 0.0
    ensures theta[1] / theta[2] * Ln(libm, theta[0]) != 0.0
    ensures ExtractParameters(theta, dt, libm)
      == Some(Thermal.Parameters(theta[1] / theta[2], CapacityFromDecay(theta[1] / theta[2], Ln(libm, theta[0]), dt)))
  {
    ExtractedCapacitySign(theta[1], theta[2], Ln(libm, theta[0]), dt);
  }

  lemma CapacityRecovered(R: real, C: real, dt: real)
    requires R > 0.0 && C > 0.0 && dt > 0.0
    ensures R * Thermal.DecayExponent(Thermal.Parameters(R, C), dt) != 0.0
    ensures CapacityFromDecay(R, Thermal.DecayExponent(Thermal.Parameters(R, C), dt), dt) == C
  {
    MulPositive(R, C);
    var x := Thermal.DecayExponent(Thermal.Parameters(R, C), dt);
    assert x == -dt / (R * C);
    assert R * x == -dt / C;
  }

  /** What `update` reports: the error, the parameter vector and the counter. */
  datatype UpdateStats = UpdateStats(error: real, theta: seq<real>, nUpdates: nat)

  class ParameterEstimator {
    const dt: real
    const lambda: real
    const libm: Libm
    var theta: array<real>
    var P: array2<real>
    var nUpdates: nat
    var lastError: real

    ghost predicate Valid()
      reads this
    {
      theta.Length == 3 && P.Length0 == 3 && P.Length1 == 3 && lambda > 0.0
    }

    /** The estimator state as an `RlsState` value. */
    function State(): (s: RlsState)
      requires Valid()
      reads this, theta, P
      ensures s.WellShaped()
    {
      RlsState(theta[..], [[P[0, 0], P[0, 1], P[0, 2]], [P[1, 0], P[1, 1], P[1, 2]], [P[2, 0], P[2, 1], P[2, 2]]],
               nUpdates, lastError)
    }

    /**
     * A fresh state whose θ comes from the given parameters, or from the
     * start-up guess R = 0.002, C = 4.5e6 when none are given.
     */
    constructor (dt: real, forgettingFactor: real, initialParams: Option<Thermal.Parameters>, libm: Libm)
      requires forgettingFactor > 0.0
      requires initialParams.Some? ==> initialParams.value.R * initialParams.value.C != 0.0
      ensures Valid() && fresh(theta) && fresh(P)
      ensures this.dt == dt && lambda == forgettingFactor && this.libm == libm
      ensures State() == InitialState().(theta := ThetaFromParameters(
        if initialParams.Some? then initialParams.value else DefaultParameters(), dt, libm))
    {
      this.dt := dt;
      lambda := forgettingFactor;
      this.libm := libm;
      theta := new real[3];
      P := new real[3, 3];
      new;
      ResetState();
      var p := if initialParams.Some? then initialParams.value else DefaultParameters();
      SetTheta(ThetaFromParameters(p, dt, libm));
    }

    /** `RLSState()`: θ = 0, P = 1000·I, counter and error zero. */
    method ResetState()
      requires theta.Length == 3 && P.Length0 == 3 && P.Length1 == 3 && lambda > 0.0
      modifies this, theta, P
      ensures Valid() && theta == old(theta) && P == old(P)
      ensures State() == InitialState()
    {
      theta[0], theta[1], theta[2] := 0.0, 0.0, 0.0;
      forall i, j | 0 <= i < 3 && 0 <= j < 3 {
        P[i, j] := if i == j then INITIAL_COVARIANCE else 0.0;
      }
      nUpdates := 0;
      lastError := 0.0;
    }

    method SetTheta(t: seq<real>)
      requires Valid() && |t| == 3
      modifies theta
      ensures State() == old(State()).(theta := t)
    {
      theta[0], theta[1], theta[2] := t[0], t[1], t[2];
      assert theta[..] == t;
    }

    /** `reset`: a fresh state with the start-up θ. */
    method Reset()
      requires Valid()
      modifies this, theta, P
      ensures Valid() && theta == old(theta) && P == old(P)
      ensures State() == InitialState().(theta := ThetaFromParameters(DefaultParameters(), dt, libm))
    {
      ResetState();
      SetTheta(ThetaFromParameters(DefaultParameters(), dt, libm));
    }

    /**
     * `update`: one RLS step on the measurement, with θ and P rewritten in
     * place; the result is the specification `RlsUpdate` applied to the
     * previous state.
     */
    method Update(Tmeas: real, Tout: real, Pheat: real, Tprev: Option<real>) returns (stats: UpdateStats)
      requires Valid()
      modifies this, theta, P
      ensures Valid() && theta == old(theta) && P == old(P)
      ensures (State(), stats.error) == RlsUpdate(old(State()), lambda, Tmeas, Tout, Pheat, Tprev)
      ensures stats == UpdateStats(stats.error, theta[..], nUpdates)
    {
      if Tprev.None? && nUpdates == 0 {
        return UpdateStats(0.0, theta[..], nUpdates);
      }
      var tp := if Tprev.Some? then Tprev.value else PredictFromTheta(theta[..], Tmeas, Pheat, Tout);
      var phi := [tp, Pheat, Tout];
      assert phi == Regressor(State(), Tmeas, Tout, Pheat, Tprev);
      var error := Tmeas - Dot(phi, theta[..]);
      ApplyCorrection(phi, error);
      return UpdateStats(error, theta[..], nUpdates);
    }

    /** The part of `update` after the prediction error: `Correct` on the state. */
    method ApplyCorrection(phi: seq<real>, error: real)
      requires Valid() && |phi| == 3
      modifies this, theta, P
      ensures Valid() && theta == old(theta) && P == old(P)
      ensures State() == Correct(old(State()), lambda, phi, error)
    {
      lastError := error;
      var Pphi := MatVec(State().P, phi);
      var d := lambda + Dot(phi, Pphi);
      if Abs(d) < DENOMINATOR_EPSILON {
        return;
      }
      var K := Gain(Pphi, d);
      AddToTheta(K, error);
      DowndateCovariance(K, Pphi);
      nUpdates := nUpdates + 1;
    }

    /** θ := θ + K·e, as one vector operation. */
    method AddToTheta(K: seq<real>, e: real)
      requires Valid() && |K| == 3
      modifies theta
      ensures State() == old(State()).(theta := ThetaUpdate(old(State()).theta, K, e))
    {
      ghost var t0 := theta[..];
      assert t0[0] == theta[0] && t0[1] == theta[1] && t0[2] == theta[2];
      forall i | 0 <= i < 3 {
        theta[i] := theta[i] + K[i] * e;
      }
      assert theta[0] == t0[0] + K[0] * e && theta[1] == t0[1] + K[1] * e && theta[2] == t0[2] + K[2] * e;
      assert theta[..] == ThetaUpdate(t0, K, e);
    }

    /** P := (P − K·(Pφ)ᵀ)/λ, as one matrix operation. */
    method DowndateCovariance(K: seq<real>, Pphi: seq<real>)
      requires Valid() && |K| == 3 && |Pphi| == 3
      modifies P
      ensures State() == old(State()).(P := CovarianceUpdate(old(State()).P, K, Pphi, lambda))
    {
      ghost var P0 := State().P;
      forall i, j | 0 <= i < 3 && 0 <= j < 3 {
        P[i, j] := (P[i, j] - K[i] * Pphi[j]) / lambda;
      }
      ghost var P' := CovarianceUpdate(P0, K, Pphi, lambda);
      assert forall r, c :: 0 <= r < 3 && 0 <= c < 3 ==> P[r, c] == P'[r][c];
      assert State().P[0] == P'[0] && State().P[1] == P'[1] && State().P[2] == P'[2];
    }

    /** `get_thermal_parameters` on the current θ. */
    function GetThermalParameters(): (r: Option<Thermal.Parameters>)
      requires Valid()
      reads this, theta
      ensures r.Some? ==> r.value.Validate()
    {
      ExtractParameters(theta[..], dt, libm)
    }
  }
}

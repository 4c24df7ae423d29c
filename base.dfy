/**
 * Shared vocabulary of the control engine: optional values and error
 * results, Python's `min`/`max` clamps, left-to-right sums, NumPy's edge
 * padding and `np.interp`, and the transcendental functions the source
 * takes from NumPy, passed in as a record with only the laws the code
 * relies on.
 */
module Base {

  datatype Option<T> = None | Some(value: T)

  /** A computation that either returns a value or raises an error with a message. */
  datatype Result<T> = Success(value: T) | Failure(error: string)

  /** The outcome of a call made for its effect: it returns normally or raises. */
  datatype Status = Ok | Raised(error: string)

  /** Python's `min(a, b)` and `max(a, b)` on floats. */
  function Min(a: real, b: real): real { if a <= b then a else b }
  function Max(a: real, b: real): real { if a >= b then a else b }

  /**
   * `max(lo, min(hi, x))`, the clamp idiom the controllers use. When
   * lo <= hi the result lies in [lo, hi] and is x itself whenever x does.
   */
  function Clamp(lo: real, hi: real, x: real): (r: real)
    ensures lo <= hi ==> lo <= r <= hi
    ensures lo <= x <= hi ==> r == x
    ensures lo <= hi && x < lo ==> r == lo
    ensures lo <= hi && x > hi ==> r == hi
  {
    Max(lo, Min(hi, x))
  }

  function Abs(x: real): real { if x < 0.0 then -x else x }

  /** Python's `sum(values)`, accumulated from the left. */
  function Sum(s: seq<real>): real
    decreases |s|
  {
    if |s| == 0 then 0.0 else Sum(s[..|s| - 1]) + s[|s| - 1]
  }

  /** Extending a prefix by one element adds that element to the sum. */
  lemma SumAppend(s: seq<real>, k: nat)
    requires k < |s|
    ensures Sum(s[..k + 1]) == Sum(s[..k]) + s[k]
  {
    assert s[..k + 1][..k] == s[..k];
  }

  lemma {:induction false} SumNonNegative(s: seq<real>)
    requires forall i :: 0 <= i < |s| ==> s[i] >= 0.0
    ensures Sum(s) >= 0.0
    decreases |s|
  {
    if |s| > 0 {
      SumNonNegative(s[..|s| - 1]);
    }
  }

  /** Sum of a sequence scaled elementwise is the scaled sum. */
  lemma {:induction false} SumScale(s: seq<real>, t: seq<real>, k: real)
    requires |t| == |s|
    requires forall i :: 0 <= i < |s| ==> t[i] == s[i] * k
    ensures Sum(t) == Sum(s) * k
    decreases |s|
  {
    if |s| > 0 {
      SumScale(s[..|s| - 1], t[..|t| - 1], k);
    }
  }

  /** `[x] * n` / `np.full(n, x)`. */
  function Repeat<T>(x: T, n: nat): (r: seq<T>)
    ensures |r| == n
    ensures forall i :: 0 <= i < n ==> r[i] == x
  {
    seq(n, _ => x)
  }

  /**
   * `np.pad(s, (0, extra), mode="edge")`: `extra` copies of the last element
   * appended, the original prefix unchanged.
   */
  function EdgePad(s: seq<real>, extra: nat): (r: seq<real>)
    requires |s| > 0
    ensures |r| == |s| + extra
    ensures r[..|s|] == s
    ensures forall i :: |s| <= i < |r| ==> r[i] == s[|s| - 1]
  {
    s + Repeat(s[|s| - 1], extra)
  }

  /** Python's `int(x)` on a float: truncation toward zero. */
  function Trunc(x: real): (r: int)
    ensures Abs(r as real) <= Abs(x) < Abs(r as real) + 1.0
    ensures (x >= 0.0 ==> r >= 0) && (x < 0.0 ==> r <= 0)
  {
    if x >= 0.0 then x.Floor else -((-x).Floor)
  }

  /**
   * The transcendental functions the code takes from NumPy and `math`
   * (`np.exp`, `np.log`, `np.sqrt`), passed in as values.
   */
  datatype Libm = Libm(exp: real -> real, ln: real -> real, sqrt: real -> real)

  function Exp(m: Libm, x: real): real { m.exp(x) }
  function Ln(m: Libm, x: real): real { m.ln(x) }
  function Sqrt(m: Libm, x: real): real { m.sqrt(x) }

  /** The laws of exp the control engine relies on: positive, and below 1 for negative arguments. */
  ghost predicate ExpLawful(m: Libm)
  {
    (forall x :: Exp(m, x) > 0.0) &&
    (forall x :: x < 0.0 ==> Exp(m, x) < 1.0)
  }

  /** The law of sqrt the metrics rely on: a non-negative square root. Nothing is assumed of ln. */
  ghost predicate SqrtLawful(m: Libm)
  {
    forall x :: x >= 0.0 ==> Sqrt(m, x) >= 0.0 && Sqrt(m, x) * Sqrt(m, x) == x
  }

  predicate NonDecreasing(xs: seq<real>)
  {
    forall i, j :: 0 <= i <= j < |xs| ==> xs[i] <= xs[j]
  }

  predicate Between(v: real, a: real, b: real)
  {
    Min(a, b) <= v <= Max(a, b)
  }

  /** Linear interpolation a + t·(b − a). */
  function Lerp(a: real, b: real, t: real): (r: real)
    requires 0.0 <= t <= 1.0
    ensures Between(r, a, b)
  {
    LerpBetween(a, b, t);
    a + t * (b - a)
  }

  lemma LerpBetween(a: real, b: real, t: real)
    requires 0.0 <= t <= 1.0
    ensures Between(a + t * (b - a), a, b)
  {
    var d := b - a;
    if a <= b {
      MulNonNegative(t, d);
      MulNonNegative(1.0 - t, d);
    } else {
      MulNonNegative(t, -d);
      MulNonNegative(1.0 - t, -d);
    }
  }

  lemma MulNonNegative(x: real, y: real)
    requires x >= 0.0 && y >= 0.0
    ensures x * y >= 0.0
  {
  }

  lemma MulPositive(x: real, y: real)
    requires x > 0.0 && y > 0.0
    ensures x * y > 0.0
  {
  }

  lemma SquareNonNegative(x: real)
    ensures x * x >= 0.0
  {
    if x < 0.0 {
      MulNonNegative(-x, -x);
    } else {
      MulNonNegative(x, x);
    }
  }

  function SeqMin(s: seq<real>): real
    requires |s| > 0
    decreases |s|
  {
    if |s| == 1 then s[0] else Min(s[0], SeqMin(s[1..]))
  }

  function SeqMax(s: seq<real>): real
    requires |s| > 0
    decreases |s|
  {
    if |s| == 1 then s[0] else Max(s[0], SeqMax(s[1..]))
  }

  /** The maximum bounds every element and is one of them. */
  lemma {:induction false} SeqMaxBounds(s: seq<real>)
    requires |s| > 0
    ensures forall i :: 0 <= i < |s| ==> s[i] <= SeqMax(s)
    ensures exists i :: 0 <= i < |s| && s[i] == SeqMax(s)
    decreases |s|
  {
    if |s| > 1 {
      SeqMaxBounds(s[1..]);
      var j :| 0 <= j < |s[1..]| && s[1..][j] == SeqMax(s[1..]);
      assert s[j + 1] == SeqMax(s[1..]);
      forall i | 1 <= i < |s| ensures s[i] <= SeqMax(s) {
        assert s[i] == s[1..][i - 1];
      }
    } else {
      assert s[0] == SeqMax(s);
    }
  }

  /** The minimum is below every element and is one of them. */
  lemma {:induction false} SeqMinBounds(s: seq<real>)
    requires |s| > 0
    ensures forall i :: 0 <= i < |s| ==> s[i] >= SeqMin(s)
    ensures exists i :: 0 <= i < |s| && s[i] == SeqMin(s)
    decreases |s|
  {
    if |s| > 1 {
      SeqMinBounds(s[1..]);
      var j :| 0 <= j < |s[1..]| && s[1..][j] == SeqMin(s[1..]);
      assert s[j + 1] == SeqMin(s[1..]);
      forall i | 1 <= i < |s| ensures s[i] >= SeqMin(s) {
        assert s[i] == s[1..][i - 1];
      }
    } else {
      assert s[0] == SeqMin(s);
    }
  }

  /** Python truthiness of an optional entity id. */
  predicate Given(entity: Option<string>)
  {
    entity.Some? && |entity.value| > 0
  }

  /**
   * `np.interp(x, xp, fp)` with its default `left = fp[0]` and
   * `right = fp[-1]`: the piecewise-linear function through the points
   * (xp[i], fp[i]), held constant outside [xp[0], xp[-1]].
   */
  function Interp(x: real, xp: seq<real>, fp: seq<real>): (r: real)
    requires |xp| == |fp| > 0
    requires NonDecreasing(xp)
    ensures SeqMin(fp) <= r <= SeqMax(fp)
    ensures x < xp[0] ==> r == fp[0]
    ensures x >= xp[|xp| - 1] ==> r == fp[|fp| - 1]
    decreases |xp|
  {
    if x < xp[0] || |xp| == 1 then
      fp[0]
    else if x < xp[1] then
      Lerp(fp[0], fp[1], (x - xp[0]) / (xp[1] - xp[0]))
    else
      assert NonDecreasing(xp[1..]) by {
        forall i, j | 0 <= i <= j < |xp| - 1 ensures xp[1..][i] <= xp[1..][j] {
          assert xp[1..][i] == xp[i + 1] && xp[1..][j] == xp[j + 1];
        }
      }
      assert x >= xp[0] && x >= xp[1];
      Interp(x, xp[1..], fp[1..])
  }

  function DigitChar(d: nat): char
    requires d < 10
  {
    "0123456789"[d]
  }

  /** Decimal text of a natural number, as `str(n)` writes it. */
  function NatToString(n: nat): (s: string)
    ensures |s| > 0 && forall i :: 0 <= i < |s| ==> '0' <= s[i] <= '9'
  {
    if n < 10 then [DigitChar(n)] else NatToString(n / 10) + [DigitChar(n % 10)]
  }

  /** Different digits have different characters. */
  lemma DigitCharInjective(a: nat, b: nat)
    requires a < 10 && b < 10 && DigitChar(a) == DigitChar(b)
    ensures a == b
  {
  }

  /** A number from 10 on prints as the digits of n / 10 followed by the digit n % 10. */
  lemma NatToStringSplit(n: nat)
    requires n >= 10
    ensures var s := NatToString(n);
      |s| >= 2 && s[..|s| - 1] == NatToString(n / 10) && s[|s| - 1] == DigitChar(n % 10)
  {
  }

  /** Decimal printing is one-to-one: different numbers print differently. */
  lemma {:induction false} NatToStringInjective(a: nat, b: nat)
    requires NatToString(a) == NatToString(b)
    ensures a == b
    decreases a
  {
    if a < 10 && b < 10 {
      DigitCharInjective(a, b);
    } else if a < 10 {
      NatToStringSplit(b);
    } else if b < 10 {
      NatToStringSplit(a);
    } else {
      NatToStringSplit(a);
      NatToStringSplit(b);
      NatToStringInjective(a / 10, b / 10);
      DigitCharInjective(a % 10, b % 10);
    }
  }

  /** Decimal text of an integer, with a leading '-' when negative. */
  function IntToString(i: int): (s: string)
    ensures |s| > 0
    ensures i >= 0 ==> s == NatToString(i)
  {
    if i < 0 then "-" + NatToString(-i) else NatToString(i)
  }
}

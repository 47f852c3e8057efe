/** The borrow-APR column of the loan-position table
    (src/app/app/_components/LoanPositionTable.tsx): a piecewise rate curve
    with a kink, evaluated on the position's utilization, kink utilization,
    slopes (all in basis points) and risk factor (used as an exponent). */
module BorrowApr {
  import opened Outcome
  import opened CoreConstants
  import opened JsNumber

  /** `d || 1` for a finite divisor. */
  function Guard(d: real): (g: real)
    ensures g != 0.0
    ensures d != 0.0 ==> g == d
  {
    if d != 0.0 then d else 1.0
  }

  /** The post-kink excess utilization, as the code computes it: in basis
      points (0 at the kink, BPS at full utilization), not as a fraction. */
  function Excess(u: real, k: real): real {
    (u - k) * BPS as real / Guard(BPS as real - k)
  }

  /** The APR as a fraction, over exact reals. `u` and `k` are in bps; the
      slopes `sb` and `sa` have already been divided by BPS. */
  function Curve(u: real, k: real, sb: real, sa: real, rf: nat): real {
    if u < k then sb * u / Guard(k)
    else BASE_RATE_BPS as real / BPS as real + sb + Surcharge(u, k, sa, rf)
  }

  /** The risk-weighted term above the kink: `sa * excess^rf`. */
  function Surcharge(u: real, k: real, sa: real, rf: nat): real {
    sa * Power(Excess(u, k), rf)
  }

  /** The fields of a loan position the table reads: the utilization and the
      three rate parameters are strings on the wire, the risk factor a number;
      each may be missing. */
  datatype LoanPositionView = LoanPositionView(
    utilization: Option<string>,
    kinkUtilization: Option<string>,
    slopeBeforeKink: Option<string>,
    slopeAfterKink: Option<string>,
    riskFactor: Option<nat>)

  /** `riskFactor || 0`. */
  function RiskExponent(p: LoanPositionView): nat {
    if p.riskFactor.Some? then p.riskFactor.value else 0
  }

  /** The `borrowedApr` expression, step by step with JavaScript number
      semantics (`NaN` propagation, `|| 1` divisor guards, `Math.pow`). */
  function BorrowedApr(p: LoanPositionView): Num {
    AprExpression(ReadNumber(p.utilization), ReadNumber(p.kinkUtilization),
      ReadNumber(p.slopeBeforeKink), ReadNumber(p.slopeAfterKink), RiskExponent(p))
  }

  /** The expression on the numbers read from the position; the slopes
      arrive in basis points. */
  function AprExpression(u: Num, k: Num, slopeBefore: Num, slopeAfter: Num, rf: nat): Num {
    var sb := Div(slopeBefore, Fin(BPS as real));
    var sa := Div(slopeAfter, Fin(BPS as real));
    if Less(u, k) then
      Div(Mul(sb, u), NumOr(k, Fin(1.0)))
    else
      var excess := Div(Mul(Sub(u, k), Fin(BPS as real)), NumOr(Sub(Fin(BPS as real), k), Fin(1.0)));
      Add(Add(Div(Fin(BASE_RATE_BPS as real), Fin(BPS as real)), sb), Mul(sa, MathPow(excess, rf)))
  }

  /** When every field reads as a number, the table's APR is the rate curve
      at those numbers, with both slopes taken as fractions of BPS. */
  lemma BorrowedAprIsCurve(p: LoanPositionView)
    requires ReadNumber(p.utilization).Fin? && ReadNumber(p.kinkUtilization).Fin?
    requires ReadNumber(p.slopeBeforeKink).Fin? && ReadNumber(p.slopeAfterKink).Fin?
    ensures BorrowedApr(p) == Fin(Curve(
      ReadNumber(p.utilization).r, ReadNumber(p.kinkUtilization).r,
      ReadNumber(p.slopeBeforeKink).r / BPS as real, ReadNumber(p.slopeAfterKink).r / BPS as real,
      RiskExponent(p)))
  {
    AprExpressionIsCurve(ReadNumber(p.utilization).r, ReadNumber(p.kinkUtilization).r,
      ReadNumber(p.slopeBeforeKink).r, ReadNumber(p.slopeAfterKink).r, RiskExponent(p));
  }

  lemma AprExpressionIsCurve(u: real, k: real, slopeBefore: real, slopeAfter: real, rf: nat)
    ensures AprExpression(Fin(u), Fin(k), Fin(slopeBefore), Fin(slopeAfter), rf)
         == Fin(Curve(u, k, slopeBefore / BPS as real, slopeAfter / BPS as real, rf))
  {
    if u < k {
      BelowKinkExpression(u, k, slopeBefore, slopeAfter, rf);
    } else {
      AboveKinkExpression(u, k, slopeBefore, slopeAfter, rf);
    }
  }

  lemma BelowKinkExpression(u: real, k: real, slopeBefore: real, slopeAfter: real, rf: nat)
    requires u < k
    ensures AprExpression(Fin(u), Fin(k), Fin(slopeBefore), Fin(slopeAfter), rf)
         == Fin(slopeBefore / BPS as real * u / Guard(k))
  {
    var sb := slopeBefore / BPS as real;
    assert Div(Fin(slopeBefore), Fin(BPS as real)) == Fin(sb);
    assert NumOr(Fin(k), Fin(1.0)) == Fin(Guard(k));
    assert Mul(Fin(sb), Fin(u)) == Fin(sb * u);
  }

  lemma AboveKinkExpression(u: real, k: real, slopeBefore: real, slopeAfter: real, rf: nat)
    requires k <= u
    ensures AprExpression(Fin(u), Fin(k), Fin(slopeBefore), Fin(slopeAfter), rf)
         == Fin(slopeBefore / BPS as real + Surcharge(u, k, slopeAfter / BPS as real, rf))
  {
    var sb, sa := slopeBefore / BPS as real, slopeAfter / BPS as real;
    assert Div(Fin(slopeBefore), Fin(BPS as real)) == Fin(sb);
    assert Div(Fin(slopeAfter), Fin(BPS as real)) == Fin(sa);
    var d := Sub(Fin(BPS as real), Fin(k));
    assert NumOr(d, Fin(1.0)) == Fin(Guard(BPS as real - k));
    var e := Excess(u, k);
    assert Div(Mul(Sub(Fin(u), Fin(k)), Fin(BPS as real)), NumOr(d, Fin(1.0))) == Fin(e);
    assert Mul(Fin(sa), MathPow(Fin(e), rf)) == Fin(Surcharge(u, k, sa, rf));
    assert Div(Fin(BASE_RATE_BPS as real), Fin(BPS as real)) == Fin(0.0);
  }

  /** A missing or empty field reads as 0 (`Number(x || "0")`). */
  predicate Unset(f: Option<string>) {
    f == None || f == Some("")
  }

  /** A position with no rate data at all shows an APR of 0, whichever of
      its string fields are missing and whichever are empty, and whatever its
      risk factor. */
  lemma EmptyPositionHasZeroApr(p: LoanPositionView)
    requires Unset(p.utilization) && Unset(p.kinkUtilization)
    requires Unset(p.slopeBeforeKink) && Unset(p.slopeAfterKink)
    ensures BorrowedApr(p) == Fin(0.0)
  {
    ReadNumberDefaults("");
  }

  /** Below the kink the APR is `sb * u / k`: linear in `u` and 0 at `u = 0`. */
  lemma BelowKink(u: real, k: real, sb: real, sa: real, rf: nat)
    requires u < k && k != 0.0
    ensures Curve(u, k, sb, sa, rf) == sb * u / k
    ensures 0.0 < k ==> Curve(0.0, k, sb, sa, rf) == 0.0
  {
  }

  /** At or above the kink the APR is `BASE_RATE_BPS/BPS + sb + sa * e^rf` with
      the excess `e = (u - k) * BPS / (BPS - k)` left in basis points: it
      reaches BPS, not 1, at full utilization. */
  lemma AboveKink(u: real, k: real, sb: real, sa: real, rf: nat)
    requires k <= u && k != BPS as real
    ensures Curve(u, k, sb, sa, rf) == sb + sa * Power((u - k) * BPS as real / (BPS as real - k), rf)
    ensures Excess(BPS as real, k) == BPS as real
  {
    CancelFactor(BPS as real - k, BPS as real);
  }

  lemma CancelFactor(d: real, x: real)
    requires d != 0.0
    ensures d * x / d == x
  {
  }

  /** With `k = 0` the divisor guard makes the below-kink branch unreachable
      for `u >= 0`, and the excess is `u` itself. */
  lemma ZeroKink(u: real, sb: real, sa: real, rf: nat)
    requires 0.0 <= u
    ensures Curve(u, 0.0, sb, sa, rf) == sb + sa * Power(u, rf)
  {
    assert Excess(u, 0.0) == u by {
      CancelFactor(BPS as real, u);
      assert (u - 0.0) * BPS as real == BPS as real * u;
    }
  }

  /** With `k = BPS` the divisor `BPS - k` is replaced by 1. */
  lemma FullKink(u: real, sb: real, sa: real, rf: nat)
    requires BPS as real <= u
    ensures Curve(u, BPS as real, sb, sa, rf) == sb + sa * Power((u - BPS as real) * BPS as real, rf)
  {
  }

  /** Risk factor 0 flattens the curve above the kink to `sb + sa`,
      whatever the utilization. */
  lemma FlatAtRiskFactorZero(u: real, k: real, sb: real, sa: real)
    requires k <= u
    ensures Curve(u, k, sb, sa, 0) == sb + sa
  {
  }

  /** At the kink the curve takes the value `sb`, the limit of the
      below-kink branch `sb * u / k`, when the risk factor is 1 or more; for
      risk factor 0 it jumps to `sb + sa` there. */
  lemma AtTheKink(k: real, sb: real, sa: real, rf: nat)
    ensures rf >= 1 ==> Curve(k, k, sb, sa, rf) == sb
    ensures rf == 0 ==> Curve(k, k, sb, sa, rf) == sb + sa
  {
    assert Excess(k, k) == 0.0;
    if rf >= 1 {
      PowerOfZero(rf);
    }
  }

  lemma PowerOfZero(n: nat)
    requires n >= 1
    ensures Power(0.0, n) == 0.0
  {
  }

  lemma {:induction false} PowerNonNegative(x: real, n: nat)
    requires 0.0 <= x
    ensures 0.0 <= Power(x, n)
  {
    if n > 0 {
      PowerNonNegative(x, n - 1);
    }
  }

  lemma {:induction false} PowerMonotone(x: real, y: real, n: nat)
    requires 0.0 <= x <= y
    ensures Power(x, n) <= Power(y, n)
  {
    if n > 0 {
      PowerMonotone(x, y, n - 1);
      PowerNonNegative(x, n - 1);
      var px, py := Power(x, n - 1), Power(y, n - 1);
      assert x * px <= y * px by {
        assert (y - x) * px >= 0.0;
      }
      assert y * px <= y * py by {
        assert y * (py - px) >= 0.0;
      }
    }
  }

  /** With non-negative slopes and `0 <= k < BPS` the APR never falls as
      utilization rises, across the kink included. */
  lemma CurveMonotone(u1: real, u2: real, k: real, sb: real, sa: real, rf: nat)
    requires 0.0 <= u1 <= u2
    requires 0.0 <= k < BPS as real
    requires 0.0 <= sb && 0.0 <= sa
    ensures Curve(u1, k, sb, sa, rf) <= Curve(u2, k, sb, sa, rf)
  {
    if u2 < k {
      BelowKinkMonotone(u1, u2, k, sb);
    } else if u1 < k {
      AcrossKink(u1, u2, k, sb, sa, rf);
    } else {
      AboveKinkMonotone(u1, u2, k, sb, sa, rf);
    }
  }

  lemma AcrossKink(u1: real, u2: real, k: real, sb: real, sa: real, rf: nat)
    requires 0.0 <= u1 < k <= u2 && k < BPS as real
    requires 0.0 <= sb && 0.0 <= sa
    ensures Curve(u1, k, sb, sa, rf) <= Curve(u2, k, sb, sa, rf)
  {
    BelowKinkMonotone(u1, k, k, sb);
    CancelFactor(k, sb);
    assert sb * k / k == sb by {
      assert sb * k == k * sb;
    }
    SurchargeNonNegative(u2, k, sa, rf);
  }

  lemma SurchargeNonNegative(u: real, k: real, sa: real, rf: nat)
    requires k <= u && k < BPS as real && 0.0 <= sa
    ensures 0.0 <= Surcharge(u, k, sa, rf)
  {
    ExcessMonotone(k, u, k);
    PowerNonNegative(Excess(u, k), rf);
    ScaleMonotone(sa, 0.0, Power(Excess(u, k), rf));
  }

  lemma AboveKinkMonotone(u1: real, u2: real, k: real, sb: real, sa: real, rf: nat)
    requires k <= u1 <= u2 && k < BPS as real && 0.0 <= sa
    ensures Curve(u1, k, sb, sa, rf) <= Curve(u2, k, sb, sa, rf)
  {
    SurchargeMonotone(u1, u2, k, sa, rf);
  }

  lemma SurchargeMonotone(u1: real, u2: real, k: real, sa: real, rf: nat)
    requires k <= u1 <= u2 && k < BPS as real && 0.0 <= sa
    ensures Surcharge(u1, k, sa, rf) <= Surcharge(u2, k, sa, rf)
  {
    ExcessMonotone(u1, u2, k);
    PowerMonotone(Excess(u1, k), Excess(u2, k), rf);
    ScaleMonotone(sa, Power(Excess(u1, k), rf), Power(Excess(u2, k), rf));
  }

  lemma BelowKinkMonotone(u1: real, u2: real, k: real, sb: real)
    requires 0.0 <= u1 <= u2 && 0.0 < k && 0.0 <= sb
    ensures sb * u1 / k <= sb * u2 / k
  {
    ScaleMonotone(sb, u1, u2);
    DivideMonotone(sb * u1, sb * u2, k);
  }

  lemma ScaleMonotone(c: real, x: real, y: real)
    requires 0.0 <= c && x <= y
    ensures c * x <= c * y
  {
    MulNonNegative(c, y - x);
    assert c * (y - x) == c * y - c * x;
  }

  lemma MulNonNegative(a: real, b: real)
    requires 0.0 <= a && 0.0 <= b
    ensures 0.0 <= a * b
  {
  }

  lemma DivideMonotone(a: real, b: real, d: real)
    requires a <= b && 0.0 < d
    ensures a / d <= b / d
  {
  }

  lemma ExcessMonotone(u1: real, u2: real, k: real)
    requires k <= u1 <= u2 && k < BPS as real
    ensures 0.0 <= Excess(u1, k) <= Excess(u2, k)
  {
    var d := BPS as real - k;
    assert (u1 - k) * BPS as real <= (u2 - k) * BPS as real;
    DivideMonotone(0.0, (u1 - k) * BPS as real, d);
    DivideMonotone((u1 - k) * BPS as real, (u2 - k) * BPS as real, d);
  }

  /** The value the table formats: `borrowedApr * 100`, in percent. */
  function AprPercent(p: LoanPositionView): (r: Num)
    ensures BorrowedApr(p).NaN? <==> r.NaN?
    ensures r.Fin? ==> r.r == 100.0 * BorrowedApr(p).r
  {
    Mul(BorrowedApr(p), Fin(100.0))
  }

  /** The risk-factor column: `RISK_FACTOR_BFS_VECTOR[rf] / BPS`, where an
      index outside the table reads `undefined` and divides to `NaN`. The
      column shows the multiplier `(rf + 1) / 2`. */
  function RiskFactorColumn(rf: int): (r: Num)
    ensures 0 <= rf < 4 ==> r == Fin((rf + 1) as real / 2.0)
    ensures !(0 <= rf < 4) ==> r == NaN
  {
    if 0 <= rf < |RISK_FACTOR_BFS_VECTOR| then
      Fin(RISK_FACTOR_BFS_VECTOR[rf] as real / BPS as real)
    else NaN
  }

  // The post-kink excess was evidently meant as a fraction of the remaining
  // range, as a utilization share is everywhere else; the definitions below
  // state that reading and relate it to the code's.

  /** The excess as a fraction: 0 at the kink, 1 at full utilization. */
  function ExcessFraction(u: real, k: real): real {
    (u - k) / Guard(BPS as real - k)
  }

  /** The rate curve with the excess as a fraction. */
  function CurveIntended(u: real, k: real, sb: real, sa: real, rf: nat): real {
    if u < k then sb * u / Guard(k)
    else BASE_RATE_BPS as real / BPS as real + sb + IntendedSurcharge(u, k, sa, rf)
  }

  function IntendedSurcharge(u: real, k: real, sa: real, rf: nat): real {
    sa * Power(ExcessFraction(u, k), rf)
  }

  /** The code's excess is the intended one scaled by BPS. */
  lemma ExcessIsScaledFraction(u: real, k: real)
    ensures Excess(u, k) == BPS as real * ExcessFraction(u, k)
  {
  }

  lemma {:induction false} PowerOfProduct(a: real, b: real, n: nat)
    ensures Power(a * b, n) == Power(a, n) * Power(b, n)
  {
    if n > 0 {
      PowerOfProduct(a, b, n - 1);
      var pa, pb := Power(a, n - 1), Power(b, n - 1);
      assert a * b * (pa * pb) == (a * pa) * (b * pb);
    }
  }

  /** Below the kink the two curves agree; above it the code's surcharge is
      the intended one multiplied by `BPS^rf`, so they agree above the kink
      only for risk factor 0 or a zero slope after the kink. */
  lemma CurveVersusIntended(u: real, k: real, sb: real, sa: real, rf: nat)
    ensures u < k ==> Curve(u, k, sb, sa, rf) == CurveIntended(u, k, sb, sa, rf)
    ensures k <= u ==>
      Curve(u, k, sb, sa, rf) - sb == Power(BPS as real, rf) * (CurveIntended(u, k, sb, sa, rf) - sb)
  {
    if k <= u {
      var f := ExcessFraction(u, k);
      ExcessIsScaledFraction(u, k);
      PowerOfProduct(BPS as real, f, rf);
      var pb, pf := Power(BPS as real, rf), Power(f, rf);
      assert sa * (pb * pf) == pb * (sa * pf);
    }
  }

  lemma {:induction false} PowerAtMostOne(x: real, n: nat)
    requires 0.0 <= x <= 1.0
    ensures 0.0 <= Power(x, n) <= 1.0
  {
    if n > 0 {
      PowerAtMostOne(x, n - 1);
      UnitProduct(x, Power(x, n - 1));
    }
  }

  lemma UnitProduct(a: real, b: real)
    requires 0.0 <= a <= 1.0 && 0.0 <= b <= 1.0
    ensures 0.0 <= a * b <= 1.0
  {
    MulNonNegative(a, b);
    MulNonNegative(a, 1.0 - b);
    assert a * (1.0 - b) == a - a * b;
  }

  /** With the excess as a fraction, for utilization in `[0, BPS]` and a kink
      strictly inside, the APR lies between 0 and `sb + sa`, reaching
      `sb + sa` at full utilization. */
  lemma CurveIntendedBounded(u: real, k: real, sb: real, sa: real, rf: nat)
    requires 0.0 <= u <= BPS as real && 0.0 < k < BPS as real
    requires 0.0 <= sb && 0.0 <= sa
    ensures 0.0 <= CurveIntended(u, k, sb, sa, rf) <= sb + sa
    ensures CurveIntended(BPS as real, k, sb, sa, rf) == sb + sa
  {
    if u < k {
      BelowKinkMonotone(0.0, u, k, sb);
      BelowKinkMonotone(u, k, k, sb);
      CancelFactor(k, sb);
      assert sb * k == k * sb;
    } else {
      IntendedSurchargeBounded(u, k, sa, rf);
    }
    IntendedSurchargeAtFull(k, sa, rf);
  }

  lemma IntendedSurchargeBounded(u: real, k: real, sa: real, rf: nat)
    requires k <= u <= BPS as real && k < BPS as real && 0.0 <= sa
    ensures 0.0 <= IntendedSurcharge(u, k, sa, rf) <= sa
  {
    var d := BPS as real - k;
    var f := ExcessFraction(u, k);
    assert f == (u - k) / d;
    DivideMonotone(0.0, u - k, d);
    DivideMonotone(u - k, d, d);
    assert d / d == 1.0;
    PowerAtMostOne(f, rf);
    ScaleByUnit(sa, Power(f, rf));
  }

  lemma ScaleByUnit(c: real, t: real)
    requires 0.0 <= c && 0.0 <= t <= 1.0
    ensures 0.0 <= c * t <= c
  {
    MulNonNegative(c, t);
    MulNonNegative(c, 1.0 - t);
    assert c * (1.0 - t) == c - c * t;
  }

  lemma IntendedSurchargeAtFull(k: real, sa: real, rf: nat)
    requires k < BPS as real
    ensures IntendedSurcharge(BPS as real, k, sa, rf) == sa
  {
    var d := BPS as real - k;
    assert Guard(d) == d;
    assert d / d == 1.0;
    assert ExcessFraction(BPS as real, k) == 1.0;
    PowerOfOne(rf);
  }

  lemma {:induction false} PowerOfOne(n: nat)
    ensures Power(1.0, n) == 1.0
  {
    if n > 0 {
      PowerOfOne(n - 1);
    }
  }

  /** The worked example of a kink at 80%, slopes of 10% and 5% and risk
      factor 1: at 40% utilization both curves give 5%; at 90% the intended
      curve gives 12.5% while the code's gives 25010%. */
  lemma KinkExample()
    ensures Curve(4000.0, 8000.0, 0.1, 0.05, 1) == 0.05
    ensures CurveIntended(4000.0, 8000.0, 0.1, 0.05, 1) == 0.05
    ensures CurveIntended(9000.0, 8000.0, 0.1, 0.05, 1) == 0.125
    ensures Curve(9000.0, 8000.0, 0.1, 0.05, 1) == 250.1
  {
    assert Excess(9000.0, 8000.0) == 5000.0;
    assert ExcessFraction(9000.0, 8000.0) == 0.5;
  }
}

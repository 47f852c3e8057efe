/** The protocol's basis-point parameter tables (src/constants/core.ts). */
module CoreConstants {

  /** 100% in basis points. */
  const BPS: int := 10000
  const BASE_RATE_BPS: int := 0
  const BONUS_LIQUIDITY_BPS: int := 500
  /** Displayed risk multiplier per risk-factor index: 50%, 100%, 150%, 200%. */
  const RISK_FACTOR_BFS_VECTOR: seq<int> := [5000, 10000, 15000, 20000]
  /** Loan duration per duration index, in years as bps: 0.25, 0.5, 1 and 2 years. */
  const DURATION_YEAR_VECTOR_BPS: seq<int> := [2500, 5000, 10000, 20000]
  const MULTIPLIER_TERMS_ADJUSTMENT_BPS: seq<int> := [800, 900, 1000, 1100, 1200]

  predicate StrictlyIncreasing(s: seq<int>) {
    forall i, j :: 0 <= i < j < |s| ==> s[i] < s[j]
  }

  /** One row of the borrow widget's duration picker. */
  datatype DurationOption = DurationOption(idx: nat, caption: string, bps: int)

  /** The duration picker of the borrow widget (src/components/widgets/BorrowShare.tsx). */
  const DURATION_OPTIONS: seq<DurationOption> := [
    DurationOption(0, "0.25 Year", 2500),
    DurationOption(1, "0.5 Year", 5000),
    DurationOption(2, "1 Year", 10000),
    DurationOption(3, "2 Years", 20000)
  ]

  lemma RateConstants()
    ensures BPS == 10000 && BASE_RATE_BPS == 0
    ensures 0 < BONUS_LIQUIDITY_BPS < BPS
  {
  }

  /** Risk tiers are the multiples 0.5, 1.0, 1.5, 2.0 of BPS. */
  lemma RiskFactorVectorShape()
    ensures |RISK_FACTOR_BFS_VECTOR| == 4
    ensures forall i :: 0 <= i < 4 ==> RISK_FACTOR_BFS_VECTOR[i] == 5000 * (i + 1)
    ensures forall i :: 0 <= i < 4 ==> 2 * RISK_FACTOR_BFS_VECTOR[i] == (i + 1) * BPS
    ensures StrictlyIncreasing(RISK_FACTOR_BFS_VECTOR)
  {
  }

  /** Durations grow strictly, index 2 is exactly one year, and the table the
      borrow widget offers agrees with it index by index. */
  lemma DurationVectorShape()
    ensures |DURATION_YEAR_VECTOR_BPS| == 4
    ensures StrictlyIncreasing(DURATION_YEAR_VECTOR_BPS)
    ensures DURATION_YEAR_VECTOR_BPS[2] == BPS
    ensures |DURATION_OPTIONS| == |DURATION_YEAR_VECTOR_BPS|
    ensures forall i :: 0 <= i < |DURATION_OPTIONS| ==>
      DURATION_OPTIONS[i].idx == i && DURATION_OPTIONS[i].bps == DURATION_YEAR_VECTOR_BPS[i]
  {
  }

  /** The term multipliers are 800 to 1200 in steps of 100. Read against
      `BPS` (10000 for 100%), as the name says, they are 8% to 12%; only read
      per mille, as the comment beside the constant does (80% to 120%), is the
      middle entry a neutral 100%. The model states the raw values and that
      the middle one is a tenth of `BPS`, and leaves the unit open. */
  lemma MultiplierVectorShape()
    ensures |MULTIPLIER_TERMS_ADJUSTMENT_BPS| == 5
    ensures forall i :: 0 <= i < 5 ==> MULTIPLIER_TERMS_ADJUSTMENT_BPS[i] == 800 + 100 * i
    ensures MULTIPLIER_TERMS_ADJUSTMENT_BPS[2] * 10 == BPS
    ensures StrictlyIncreasing(MULTIPLIER_TERMS_ADJUSTMENT_BPS)
  {
  }
}

# Firyx lending client: a Dafny model of its pure logic

The Firyx frontend is a Next.js client for an on-chain lending protocol on
Aptos. The ledger itself (deposits, borrows, debt-index accrual, shares,
yield) lives in a Move contract that is not part of these sources; the
client only observes it through `aptos.view` calls and the events of
committed transactions. This project models the deterministic logic the
client does contain, and proves what that logic promises:

- **Borrow APR** (`BorrowApr`, `apr.dfy`): the kinked rate curve of the
  loan-position table, over exact reals, with JavaScript's `NaN`, `|| 1`
  and `|| "0"` behaviour (`JsNumber`, `jsnumber.dfy`), and the risk-factor
  column.
- **Constants and form helpers** (`CoreConstants`, `LoanForm`): the basis
  point tables of `src/constants/core.ts` and the pure helpers of the
  create-position form (percentage formatting, image sources, token data,
  graph fallback, risk options).
- **Utilities** (`Convert`, `Helpers`): `snakeToCamel` over JSON-like
  values and `shortenAddress` with JavaScript `slice` semantics
  (`JsString`, `jsstring.dfy`).
- **Transaction normalisers** (`BorrowLiquidity`, `DepositLiquidity`,
  `DepositSlotClaimYield`, `LoanSlotClaimYieldAndRepay`,
  `LoanPositionCreation`), with the user-transaction gate
  (`TransactionTypeResolver`) and `extractTokenInfo` (`TokenInfo`). A
  committed transaction is a loosely typed `JsValue.Value`; property reads,
  optional chaining, `||`, `toString` (which throws on an object whose own
  `toString` entry hides the method) and `Array.prototype.find` follow
  JavaScript (`JsValue`, `Events`). Each normaliser is a `Decode` function
  whose `Err` is a thrown exception and a `Normalize…` wrapper that turns
  it into `null`, as the `try/catch` does. Each is proved twice over: a
  characterisation on arbitrary input (when the result exists and what it
  is built from), and a round trip from typed Move events
  (`Events.Transaction` and a datatype per event) through the JSON
  encoding back to the expected record.
- **Loan-slot view hook** (`LoanSlotView`): the argument guards of the ten
  view accessors, the request each sends, and `mappedLoanSlotInfo`.

Where the code departs from what its comments or layout describe, the
model follows the code:

- the post-kink excess utilization stays in basis points instead of being
  rescaled to the fraction that the formula comment at
  src/app/app/_components/LoanPositionTable.tsx:255 writes (see Findings);
  the division is the code's floating-point division, modelled over the
  reals;
- `normalizeLoanPositionCreation` (under `src/utils/normalizers`) imports
  `./extractTokenInfo` and `./transactionTypeResolver` relatively; the model
  takes these to be the `src/libs/normalizers` files of those names, and
  those are the ones modelled.

## Model

| member | source | states |
|---|---|---|
| BorrowApr.Guard | src/app/app/_components/LoanPositionTable.tsx:257-258 | `d \|\| 1` on a finite divisor is never zero and leaves a non-zero divisor unchanged |
| BorrowApr.BorrowedAprIsCurve | src/app/app/_components/LoanPositionTable.tsx:250-258 | when all fields read as numbers, the JavaScript expression (with `NaN` and `\|\|` semantics) equals the exact-real rate curve |
| BorrowApr.AprExpressionIsCurve | src/app/app/_components/LoanPositionTable.tsx:256-258 | on finite inputs the step-by-step number expression is the curve with slopes divided by BPS |
| BorrowApr.BelowKinkExpression | src/app/app/_components/LoanPositionTable.tsx:256-257 | below the kink the expression is `sb*u/(k \|\| 1)` |
| BorrowApr.AboveKinkExpression | src/app/app/_components/LoanPositionTable.tsx:258 | at or above the kink the expression is the base rate (0) plus `sb` plus `sa*excess^rf` |
| BorrowApr.EmptyPositionHasZeroApr | src/app/app/_components/LoanPositionTable.tsx:250-254 | for every position whose four string fields are each absent or empty, and any risk factor, the APR is 0 |
| BorrowApr.BelowKink | src/app/app/_components/LoanPositionTable.tsx:256-257 | below the kink the APR is `sb*u/k`, and it is 0 at zero utilization |
| BorrowApr.AboveKink | src/app/app/_components/LoanPositionTable.tsx:258 | above the kink the APR is `sb + sa*((u-k)*BPS/(BPS-k))^rf`, the excess reaching BPS (not 1) at full utilization |
| BorrowApr.ZeroKink | src/app/app/_components/LoanPositionTable.tsx:257-258 | with kink 0 the below-kink branch is unreachable for non-negative utilization and the excess is `u` itself |
| BorrowApr.FullKink | src/app/app/_components/LoanPositionTable.tsx:258 | with kink = BPS the divisor `BPS-k` is replaced by 1 |
| BorrowApr.FlatAtRiskFactorZero | src/app/app/_components/LoanPositionTable.tsx:258 | risk factor 0 makes the post-kink APR the constant `sb + sa` |
| BorrowApr.AtTheKink | src/app/app/_components/LoanPositionTable.tsx:256-258 | at `u = k` the APR is `sb` for risk factor at least 1 and jumps to `sb + sa` for risk factor 0 |
| BorrowApr.CurveMonotone | src/app/app/_components/LoanPositionTable.tsx:256-258 | with non-negative slopes and `0 <= k < BPS`, the APR never decreases as utilization grows, across the kink too |
| BorrowApr.AcrossKink | src/app/app/_components/LoanPositionTable.tsx:256-258 | any point below the kink has an APR at most that of any point above it |
| BorrowApr.AboveKinkMonotone | src/app/app/_components/LoanPositionTable.tsx:258 | the post-kink branch is non-decreasing in utilization |
| BorrowApr.SurchargeNonNegative | src/app/app/_components/LoanPositionTable.tsx:258 | the risk-weighted term above the kink is non-negative |
| BorrowApr.SurchargeMonotone | src/app/app/_components/LoanPositionTable.tsx:258 | the risk-weighted term is non-decreasing in utilization |
| BorrowApr.BelowKinkMonotone | src/app/app/_components/LoanPositionTable.tsx:257 | the pre-kink branch is non-decreasing in utilization |
| BorrowApr.ExcessMonotone | src/app/app/_components/LoanPositionTable.tsx:258 | the excess is non-negative and non-decreasing above the kink |
| BorrowApr.PowerMonotone | src/app/app/_components/LoanPositionTable.tsx:258 | `Math.pow` with a natural exponent is monotone on non-negative bases |
| BorrowApr.AprPercent | src/app/app/_components/LoanPositionTable.tsx:265 | the value formatted is `100 * apr`, `NaN` exactly when the APR is `NaN` |
| BorrowApr.RiskFactorColumn | src/app/app/_components/LoanPositionTable.tsx:52 | the risk-factor column is `(rf+1)/2` for rf in 0..3 and `NaN` outside the table |
| BorrowApr.KinkExample | src/app/app/_components/LoanPositionTable.tsx:258 | a kink at 80%, slopes 10%/5%, rf 1: at 90% utilization the code gives 250.1 (25010%) where the intended curve gives 0.125 |
| BorrowApr.CurveVersusIntended | src/app/app/_components/LoanPositionTable.tsx:256-258 | the code's curve equals the intended one below the kink, and above it its surcharge is the intended one with the excess scaled by BPS^rf |
| BorrowApr.ExcessIsScaledFraction | src/app/app/_components/LoanPositionTable.tsx:258 | the code's excess is BPS times the fraction `(u-k)/(BPS-k)` |
| BorrowApr.CurveIntendedBounded | src/app/app/_components/LoanPositionTable.tsx:255 | the corrected curve stays within `[0, sb+sa]` on utilization `[0, BPS]` and reaches `sb+sa` at full utilization |
| BorrowApr.IntendedSurchargeBounded | src/app/app/_components/LoanPositionTable.tsx:255 | the corrected surcharge lies in `[0, sa]` |
| JsNumber.NumOr | src/app/app/_components/LoanPositionTable.tsx:257-258 | `a \|\| b` on numbers: `a` when truthy (finite, non-zero), else `b`; `NaN` is falsy |
| JsNumber.ToNumber | src/app/app/_components/LoanPositionTable.tsx:250-253 | `Number(s)` is 0 for blank strings and the digit value for digit strings |
| JsNumber.ReadNumberDefaults | src/app/app/_components/LoanPositionTable.tsx:250-253 | `Number(x \|\| "0")` reads a missing or empty field as 0 and a digit string as its value |
| CoreConstants.RateConstants | src/constants/core.ts:1-3 | BPS is 10000, the base rate 0, and the liquidity bonus lies strictly between 0 and BPS |
| CoreConstants.RiskFactorVectorShape | src/constants/core.ts:5 | four entries, entry i is `5000*(i+1)`, i.e. `(i+1)/2` of BPS, strictly increasing |
| CoreConstants.DurationVectorShape | src/constants/core.ts:6 | four strictly increasing durations, entry 2 is one year (BPS), and they match the borrow widget's duration options |
| CoreConstants.MultiplierVectorShape | src/constants/core.ts:7 | five adjustments `800 + 100*i`, strictly increasing, the middle one a tenth of BPS; the `_BPS` name (8% to 12%) and the per-mille comment (80% to 120%) disagree on the unit, which the model leaves open |
| LoanForm.FormatPercentage | src/app/app/create-loan-position/_components/CreateLoanPositionForm.tsx:60-61 | undefined and 0 give "N/A"; any other bps value renders with a "." before exactly two fraction digits and a "%", and parses back to the value |
| LoanForm.PercentageRoundTrip | src/app/app/create-loan-position/_components/CreateLoanPositionForm.tsx:61 | reading a rendered percentage back yields the signed bps value |
| LoanForm.GetValidImageSrc | src/app/app/create-loan-position/_components/CreateLoanPositionForm.tsx:63-64 | a source is kept, untrimmed, exactly when it is present and not blank; otherwise null |
| LoanForm.CreateTokenData | src/app/app/create-loan-position/_components/CreateLoanPositionForm.tsx:66-70 | symbol and asset type default to "", the logo is the metadata's logo when it is a valid image source |
| LoanForm.RiskFactorGraph | src/app/app/create-loan-position/_components/CreateLoanPositionForm.tsx:34-39 | risk factors 0..3 select their graph; any other value falls back to the Standard graph |
| LoanForm.RiskFactorOptionValues | src/app/app/create-loan-position/_components/CreateLoanPositionForm.tsx:239-264 | the options carry values 0..3 in order, and the default risk factor selects Standard |
| LoanForm.RiskFactorCaptions | src/app/app/create-loan-position/_components/CreateLoanPositionForm.tsx:239-264 | each option's caption is the multiplier of the risk-factor vector entry at its index |
| Convert.CamelKey | src/libs/helpers/convert.ts:9 | the rewritten key has no `_x` hump left, is unchanged when it had none, and is shorter when it had one |
| Convert.CamelKeyFixpoint | src/libs/helpers/convert.ts:9 | a key is fixed by the rewrite exactly when it has no hump; the rewrite is idempotent |
| Convert.CamelKeyWithoutUnderscore | src/libs/helpers/convert.ts:9 | keys with no underscore are unchanged |
| Convert.CamelKeyHump | src/libs/helpers/convert.ts:9 | a hump `_x` on its own becomes `X`; any single character on its own is kept |
| Convert.CamelKeyAppend | src/libs/helpers/convert.ts:9 | the replacement works left to right on non-overlapping matches: a key split anywhere but inside a hump rewrites to the two rewritten pieces, in order |
| Convert.CamelKeyConstructor | src/libs/helpers/convert.ts:6-9 | a rewritten key is `constructor` exactly when the original key was, so conversion never turns a plain object into a non-plain one |
| Convert.FromEntries | src/libs/helpers/convert.ts:7-12 | `Object.fromEntries` keeps each key once, never grows, keeps the last value of a key, and is the identity on distinct keys |
| Convert.SnakeToCamel | src/libs/helpers/convert.ts:1-15 | falsy values become null; arrays keep their length; an object passes the `constructor === Object` test exactly when it has no own `constructor` entry, and then gets distinct keys and never more entries; every other value, a non-plain object included, is returned unchanged |
| Convert.ArrayElementwise | src/libs/helpers/convert.ts:4-5 | arrays are converted element by element, in order |
| Convert.ObjectKeys | src/libs/helpers/convert.ts:6-12 | the keys of a converted plain object are exactly the rewritten input keys, so it stays plain; an object with its own `constructor` entry comes back unchanged |
| Convert.ObjectEntriesFromInput | src/libs/helpers/convert.ts:7-12 | each entry of a converted plain object is an input entry with its key rewritten and its value converted |
| Convert.SnakeToCamelIdempotent | src/libs/helpers/convert.ts:1-15 | converting twice is converting once |
| Convert.CollidingKeysKeepLaterValue | src/libs/helpers/convert.ts:7-12 | for every plain object: input keys that collide after rewriting merge into one key, which reads the converted value of the last of them |
| Helpers.ShortenAddress | src/libs/helpers/index.ts:2-4 | for `chars >= 1`: the first `chars+2` characters, "...", the last `chars`; for `chars = 0` `slice(-0)` appends the whole address; never fails on short input |
| Helpers.ShortenedLength | src/libs/helpers/index.ts:3 | a long enough address shortens to exactly `2*chars+5` characters |
| Helpers.DefaultChars | src/libs/helpers/index.ts:2 | `chars` defaults to 4, giving 13 characters |
| Helpers.ShortenedKeepsEnds | src/libs/helpers/index.ts:3 | the result is the address's head, "...", and its tail, at fixed positions |
| JsString.SliceSuffix | src/libs/helpers/index.ts:3 | `slice(-n)` is the last `n` characters for `n >= 1` and the whole string for `n = 0` |
| JsString.SliceIsInfix | src/libs/helpers/index.ts:3 | every `slice` is a contiguous part of its string |
| JsString.Includes | src/libs/normalizers/normalizeDepositLiquiditySingle.ts:18 | `includes` holds exactly when the tag occurs at some position |
| JsString.TrimEmptyIffBlank | src/app/app/create-loan-position/_components/CreateLoanPositionForm.tsx:64 | `trim()` is empty exactly when the string is all whitespace |
| TransactionTypeResolver.IsUserTransaction | src/libs/normalizers/transactionTypeResolver.ts:12-14 | true exactly for an object whose `type` is the user-transaction type; reading `type` of null throws |
| TransactionTypeResolver.ToUserTransaction | src/libs/normalizers/transactionTypeResolver.ts:4-10 | succeeds, returning its argument, exactly when `isUserTransaction` holds; otherwise throws "Transaction is not a UserTransaction" |
| TransactionTypeResolver.OtherKindsRejected | src/libs/normalizers/transactionTypeResolver.ts:7-9 | any other type, or none, is rejected with that message |
| TransactionTypeResolver.EncodedKind | src/libs/normalizers/transactionTypeResolver.ts:12-14 | an encoded transaction is a user transaction exactly when its kind is |
| TokenInfo.ExtractTokenInfo | src/libs/normalizers/extractTokenInfo.ts:7-15 | falsy input gives "" twice; otherwise `inner` when truthy, else the input; both fields always equal |
| TokenInfo.WrappedAndBareAgree | src/libs/normalizers/extractTokenInfo.ts:10-14 | a wrapped `{inner: a}` and a bare address `a` give the same token info |
| Events.MatchesTag | src/libs/normalizers/normalizeDepositLiquiditySingle.ts:17-19 | the `find` predicate throws on a nullish event or a `type` without `includes`, and otherwise tests the substring |
| Events.Find | src/libs/normalizers/normalizeDepositLiquiditySingle.ts:17-19 | `find` returns the first matching event, throws if the predicate throws before a match, and is undefined exactly when nothing matches |
| Events.FindStopsAtFirstMatch | src/libs/normalizers/normalizeDepositLiquiditySingle.ts:17-19 | events after the first match are never inspected |
| Events.FindEvent | src/libs/normalizers/normalizeDepositLiquiditySingle.ts:17 | calling `find` on a non-array `events` throws |
| Events.Success | src/libs/normalizers/normalizeDepositLiquiditySingle.ts:37 | `success \|\| vm_status === 'Executed successfully'` |
| Events.FindEncoded | src/libs/normalizers/normalizeDepositLiquiditySingle.ts:17-19 | on encoded typed events `find` returns the encoding of the first event whose type contains the tag |
| Events.EncodedSuccess | src/libs/normalizers/normalizeDepositLiquiditySingle.ts:37 | an encoded transaction succeeds when its flag is set or its VM status is "Executed successfully" |
| JsValue.Access | src/libs/normalizers/normalizeBorrowLiquidity.ts:10 | a property read throws exactly on null or undefined |
| JsValue.ToStringOrZero | src/libs/normalizers/normalizeBorrowLiquidity.ts:25-31 | when `toString` does not throw, `x?.toString() \|\| '0'` is never empty, is "0" for missing values and the empty string, renders numbers in decimal and objects as "[object Object]"; when it throws (an own `toString` entry) the normalisers report null, as `NormalizeFindsFirstEvent` states |
| JsValue.QuietFields | src/libs/normalizers/normalizeBorrowLiquidity.ts:25-31 | an object none of whose values has a throwing `toString` lets every field be rendered |
| JsValue.AmountRoundTrip | src/libs/normalizers/normalizeBorrowLiquidity.ts:25 | an on-chain amount sent as a number or a decimal string is reported as its decimal rendering, which parses back to it |
| JsValue.LookupZip | src/libs/normalizers/normalizeBorrowLiquidity.ts:22-31 | reading a field of an object built from distinct keys yields that key's value |
| Decimal.ParseOfRender | src/libs/normalizers/normalizeBorrowLiquidity.ts:25 | parsing the decimal rendering of a number gives the number back |
| Decimal.RenderOfParse | src/libs/normalizers/normalizeBorrowLiquidity.ts:25 | rendering a canonical decimal string's value gives the string back |
| BorrowLiquidity.NormalizeLiquidityBorrow | src/libs/normalizers/normalizeBorrowLiquidity.ts:8-41 | a nullish transaction or one without events gives null; a result implies `events` is an array |
| BorrowLiquidity.NormalizeFindsFirstEvent | src/libs/normalizers/normalizeBorrowLiquidity.ts:10-39 | with no user-transaction check, the result exists exactly when the first `LiquidityBorrowed` event has data none of whose amounts throws on `toString`, and is built from that event only |
| BorrowLiquidity.NormalizeEncoded | src/libs/normalizers/normalizeBorrowLiquidity.ts:21-36 | a typed `LiquidityBorrowed` event normalises to its fields: amounts as decimal strings, duration index, event timestamp, hash, gas and success |
| BorrowLiquidity.NormalizeWithoutEvent | src/libs/normalizers/normalizeBorrowLiquidity.ts:17 | without a `LiquidityBorrowed` event the result is null |
| BorrowLiquidity.MissingFieldsDefault | src/libs/normalizers/normalizeBorrowLiquidity.ts:25-33 | missing amounts read "0", the duration index 0, and the timestamp falls back to the transaction's |
| DepositLiquidity.NormalizeDepositLiquiditySingle | src/libs/normalizers/normalizeDepositLiquiditySingle.ts:10-43 | a falsy transaction gives null; a result implies a user transaction with an events array |
| DepositLiquidity.NormalizeFindsFirstEvent | src/libs/normalizers/normalizeDepositLiquiditySingle.ts:14-43 | the result exists exactly for a user transaction whose first `LiquidityDeposited` event has data none of whose amounts throws on `toString`, and is built from that event only |
| DepositLiquidity.NormalizeEncoded | src/libs/normalizers/normalizeDepositLiquiditySingle.ts:25-38 | a typed `LiquidityDeposited` event in a user transaction normalises to its fields |
| DepositLiquidity.NonUserTransactionRejected | src/libs/normalizers/normalizeDepositLiquiditySingle.ts:14 | any other transaction kind gives null through the caught resolver error |
| DepositLiquidity.NormalizeWithoutEvent | src/libs/normalizers/normalizeDepositLiquiditySingle.ts:21 | without a `LiquidityDeposited` event the result is null |
| DepositLiquidity.MissingFieldsDefault | src/libs/normalizers/normalizeDepositLiquiditySingle.ts:29-35 | missing amounts read "0" and the timestamp falls back to the transaction's |
| DepositSlotClaimYield.NormalizeDepositSlotClaimYield | src/libs/normalizers/normalizeDepositSlotClaimYield.ts:10-52 | a falsy transaction gives null; a result implies a user transaction and always carries the transaction's timestamp |
| DepositSlotClaimYield.NormalizeFindsFirstEvent | src/libs/normalizers/normalizeDepositSlotClaimYield.ts:16-50 | the result exists exactly for a user transaction whose first `YieldClaimed` event has data none of whose amounts throws on `toString`, built from that event only |
| DepositSlotClaimYield.NormalizeEncoded | src/libs/normalizers/normalizeDepositSlotClaimYield.ts:30-45 | a typed `YieldClaimed` event normalises to its fields, addresses verbatim and amounts as decimal strings |
| DepositSlotClaimYield.NonUserTransactionRejected | src/libs/normalizers/normalizeDepositSlotClaimYield.ts:16 | any other transaction kind gives null |
| DepositSlotClaimYield.NormalizeWithoutEvent | src/libs/normalizers/normalizeDepositSlotClaimYield.ts:23-26 | without a `YieldClaimed` event the result is null |
| DepositSlotClaimYield.MissingFieldsDefault | src/libs/normalizers/normalizeDepositSlotClaimYield.ts:35-40 | missing amounts read "0", and an event timestamp is ignored in favour of the transaction's |
| LoanSlotClaimYieldAndRepay.NormalizeLoanSlotClaimYieldAndRepay | src/libs/normalizers/normalizeLoanSlotClaimYieldAndRepay.ts:10-77 | a falsy transaction gives null; a result implies a user transaction with an events array and a claimed-yield or repayment event carrying data |
| LoanSlotClaimYieldAndRepay.NormalizeCharacterised | src/libs/normalizers/normalizeLoanSlotClaimYieldAndRepay.ts:16-76 | the result exists exactly when the transaction is a user one, all three searches succeed, the yield or the repayment event has data, and no amount throws on `toString`; it is built from the three events' data |
| LoanSlotClaimYieldAndRepay.NormalizeEncoded | src/libs/normalizers/normalizeLoanSlotClaimYieldAndRepay.ts:38-72 | typed events normalise to the merge: addresses prefer the yield event, repayment and debt fields default to "0" and false, the timestamp prefers yield, repay, debt, transaction |
| LoanSlotClaimYieldAndRepay.AddressPart | src/libs/normalizers/normalizeLoanSlotClaimYieldAndRepay.ts:39-41 | an address is the yield event's, else the repayment's, else "" |
| LoanSlotClaimYieldAndRepay.TimestampPart | src/libs/normalizers/normalizeLoanSlotClaimYieldAndRepay.ts:63-67 | the timestamp is the first present of yield, repayment, debt update, then the transaction |
| LoanSlotClaimYieldAndRepay.RepaidPart | src/libs/normalizers/normalizeLoanSlotClaimYieldAndRepay.ts:50-54 | without a repayment, its amounts read "0" and `loanFullyRepaid` is false |
| LoanSlotClaimYieldAndRepay.DebtPart | src/libs/normalizers/normalizeLoanSlotClaimYieldAndRepay.ts:57-60 | without a debt-index update, its four fields read "0" |
| LoanSlotClaimYieldAndRepay.DebtUpdateAloneIsNull | src/libs/normalizers/normalizeLoanSlotClaimYieldAndRepay.ts:32 | a `DebtIndexUpdated` event alone is not enough: the result is null |
| LoanSlotClaimYieldAndRepay.NonUserTransactionRejected | src/libs/normalizers/normalizeLoanSlotClaimYieldAndRepay.ts:16 | any other transaction kind gives null |
| LoanSlotClaimYieldAndRepay.RepaymentAlone | src/libs/normalizers/normalizeLoanSlotClaimYieldAndRepay.ts:40-67 | with only a repayment, yield amounts read "0", the claimer is the borrower, and the timestamp skips the yield event |
| LoanSlotClaimYieldAndRepay.MissingFieldsDefault | src/libs/normalizers/normalizeLoanSlotClaimYieldAndRepay.ts:39-60 | empty event data gives "" addresses, "0" amounts and `loanFullyRepaid` false |
| LoanPositionCreation.NormalizeLoanPositionCreation | src/utils/normalizers/normalizeLoanPositionCreation.ts:11-68 | a falsy transaction gives null; a result implies a user transaction, and its block timestamp is always the transaction's |
| LoanPositionCreation.NormalizeCharacterised | src/utils/normalizers/normalizeLoanPositionCreation.ts:15-35 | the result exists exactly when the transaction is a user one, both searches succeed, and the `LoanPositionCreated` event has data; the `CreatePositionEvent` is optional |
| LoanPositionCreation.NormalizeEncoded | src/utils/normalizers/normalizeLoanPositionCreation.ts:37-61 | a typed loan-position event (and optional AMM event) normalises to its fields, with zero fee tier and ticks falling through to the AMM event and then to 1 and 0 |
| LoanPositionCreation.TokensPart | src/utils/normalizers/normalizeLoanPositionCreation.ts:41-43 | the three token fields are `extractTokenInfo` of wrapped addresses, giving the addresses |
| LoanPositionCreation.RangeEncoded | src/utils/normalizers/normalizeLoanPositionCreation.ts:45-47 | fee tier and ticks are the loan event's non-zero value, else the AMM event's, else 1 or 0 |
| LoanPositionCreation.CurveEncoded | src/utils/normalizers/normalizeLoanPositionCreation.ts:48-51 | slopes, kink and risk factor are the loan event's values |
| LoanPositionCreation.FallbackPart | src/utils/normalizers/normalizeLoanPositionCreation.ts:45-47 | the `a \|\| b \|\| default` chain is the first non-zero of the two values, else the default |
| LoanPositionCreation.ZeroFeeTierFallsThrough | src/utils/normalizers/normalizeLoanPositionCreation.ts:45 | a fee tier of 0 reads as missing: the AMM event's tier is used, or 1 |
| LoanPositionCreation.WithoutAmmEvent | src/utils/normalizers/normalizeLoanPositionCreation.ts:40-47 | without a `CreatePositionEvent` the pool id is absent and the fallbacks skip straight to the defaults |
| LoanPositionCreation.NonUserTransactionRejected | src/utils/normalizers/normalizeLoanPositionCreation.ts:17 | any other transaction kind gives null |
| LoanPositionCreation.NormalizeWithoutEvent | src/utils/normalizers/normalizeLoanPositionCreation.ts:29-32 | without a `LoanPositionCreated` event the result is null |
| LoanPositionCreation.MissingFieldsDefault | src/utils/normalizers/normalizeLoanPositionCreation.ts:41-56 | empty data gives the default parameters (1, 0, 0, "0", "0", "0", 0), empty tokens, and a creation time equal to the block time |
| LoanSlotView.Request | src/hooks/view/useViewLoanSlot.tsx:38-177 | an accessor fails exactly on an empty slot address, or on an empty debt index for `currentDebt`; the address is checked first; a request calls the contract's function with the address as first argument |
| LoanSlotView.RequestRoundTrip | src/hooks/view/useViewLoanSlot.tsx:42-47 | every request sent decodes back to its accessor and slot address, so no two accessors share a view function |
| LoanSlotView.AddressCheckedFirst | src/hooks/view/useViewLoanSlot.tsx:150-155 | `currentDebt` reports the missing address before the missing debt index |
| LoanSlotView.EmptyAddressNeverQueries | src/hooks/view/useViewLoanSlot.tsx:39-41 | with an empty address the result is "Loan slot address is required" whatever the chain would answer |
| LoanSlotView.Call | src/hooks/view/useViewLoanSlot.tsx:38-177 | an accessor fails exactly when its guards do, and otherwise converts the chain's answer to its request |
| LoanSlotView.Respond | src/hooks/view/useViewLoanSlot.tsx:48-176 | `isActive` yields a boolean, `getLoanSlotInfo` a record, every other accessor a string |
| LoanSlotView.RespondPassesStrings | src/hooks/view/useViewLoanSlot.tsx:42-48 | `String` of the first answer: a string passes through, a missing answer becomes "undefined"; `Boolean` of a missing answer is false |
| LoanSlotView.MappedLoanSlotInfo | src/hooks/view/useViewLoanSlot.tsx:193-228 | tuple position k becomes the k-th named field, unconverted; missing positions are undefined and positions past 13 ignored |
| LoanSlotView.MappedOfTuple | src/hooks/view/useViewLoanSlot.tsx:194-226 | mapping a record's tuple gives the record back |
| LoanSlotView.TupleOfMapped | src/hooks/view/useViewLoanSlot.tsx:194-226 | a 14-value answer is recovered from its mapped record |
| LoanSlotView.MappedIgnoresTail | src/hooks/view/useViewLoanSlot.tsx:194-209 | values past the 14th do not change the record |
| LoanSlotView.MappedOfEmpty | src/hooks/view/useViewLoanSlot.tsx:194-209 | an empty answer maps to a record of undefined values |

## Left out

- The on-chain ledger (deposits, borrows, debt-index accrual, shares, yield) is Move code that is not part of this model; only the client's view of it is.
- React components, react-query hooks, the wallet adapter, the `aptos` and `hyperion` SDK clients and the mutation hooks' submit-and-wait flow are I/O and are not modelled.
- `aptos.view` itself: the deployed contract address (`CONTRACT_ADDRESS` from the configuration) and the chain's answer are parameters of `LoanSlotView.Call`.
- `console.error` logging in the normalisers' `catch` blocks and data checks has no effect on the result and is omitted.
- Floating point: the APR is computed over exact reals, with `NaN` modelled; IEEE rounding and `toFixed(2)` formatting are not modelled, so `BorrowApr.AprPercent` stops at `100 * apr`.
- JsNumber.ToNumber: `Number()` is exact only for blank strings and plain digit strings; other numeric syntaxes (signs, decimals, exponents, hex) read as `NaN`, because the fields it reads are u64 decimal strings.
- LoanForm.FormatPercentage: modelled on integer bps values only; fractional numbers and `NaN` are not inputs the form produces.
- `DEFAULT_SLOPE_BEFORE_KINK`, `DEFAULT_SLOPE_AFTER_KINK`, `DEFAULT_KINK_UTILIZATION` and `FEE_TIER_VECTOR_BPS` are imported by the form (src/app/app/create-loan-position/_components/CreateLoanPositionForm.tsx:29) from src/constants/core.ts, which does not export them, so the form's default curve values and fee-tier options are not modelled; the default risk factor is.
- `DEFAULT_DEADLINE_TS` in src/constants/core.ts is not used by any modelled operation.
- Convert.SnakeToCamel: JSON-like values only; class instances such as `Date` are not representable, so an object fails the `constructor === Object` test only through its own `constructor` entry.
- JsValue.AmountRoundTrip: `Int` is an exact integer, while a JavaScript number is a double; the number half of the round trip holds in JavaScript only below 2^53, where `JSON.parse` stops being exact, and below 10^21, where `toString` switches to exponent notation. The chain sends u64 amounts as decimal strings, and the string half holds for every amount.
- JsValue.ToStringOrZero: numbers are rendered as exact decimals, with the same 2^53 and 10^21 limits as `AmountRoundTrip`.
- LoanForm.FormatPercentage: `toFixed` is exact only for numbers below 2^53, and switches to exponent notation from 10^21; bps values are far below both.
- Helpers.ShortenAddress: strings are sequences of code points, while `slice` counts UTF-16 code units, so an address holding a character outside the Basic Multilingual Plane can be cut inside its surrogate pair in JavaScript but not here; addresses are hexadecimal ASCII.
- LoanSlotView.Respond: `String` of a view answer that is an object with its own `toString` entry throws in JavaScript; Move view results are strings, numbers, booleans and vectors, so this answer is not modelled.
- Event payloads in the round-trip lemmas are typed Move events as the chain's JSON sends them: u64 amounts and timestamps as decimal strings, small enums and counts as numbers, addresses as strings, token references as `{inner}` objects. In `LoanPositionCreated` the ticks are plain numbers; the AMM event wraps its ticks as `{bits}`.
- JSON numbers are integers; a transaction or event field holding a fractional number is not representable.
- Only the `type` and `data` of an event are encoded; the other fields of a committed transaction the SDK reports are not read by the normalisers.
- `toCamelCase` and the other helpers of src/libs/helpers/index.ts besides `shortenAddress` are not part of this model.
- LoanSlotView.MappedLoanSlotInfo: the view answer is a sequence; destructuring a non-iterable answer (which would throw) is not modelled.

## Findings

| source | as written | input that shows it | evidently intended | confidence | as-written member | corrected member |
|---|---|---|---|---|---|---|
| src/app/app/_components/LoanPositionTable.tsx:258 | the excess `(u-k)*BPS/(BPS-k)` stays in basis points, so the surcharge is `sa * excess^rf` with excess up to 10000 | kink 8000, slopes 1000/500 bps, risk factor 1, utilization 9000: APR 250.1 (25010%) | the excess as a fraction `(u-k)/(BPS-k)`, as the formula comment on line 255 writes it, giving 0.125 (12.5%) and an APR bounded by `sb + sa` | not executed | BorrowApr.KinkExample | BorrowApr.CurveIntendedBounded |

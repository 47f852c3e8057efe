/** `normalizeLoanPositionCreation`
    (src/utils/normalizers/normalizeLoanPositionCreation.ts): a new loan
    position, read from the first `LoanPositionCreated` event of a user
    transaction, with the pool id and fallback parameters taken from the
    AMM's `CreatePositionEvent` when there is one. */
module LoanPositionCreation {
  import opened Outcome
  import opened Decimal
  import opened JsValue
  import opened Events
  import opened TransactionTypeResolver
  import opened TokenInfo

  const CREATED_TAG: string := "LoanPositionCreated"
  const POSITION_TAG: string := "CreatePositionEvent"

  datatype Parameters = Parameters(
    feeTier: Value,
    tickLower: Value,
    tickUpper: Value,
    slopeBeforeKink: Value,
    slopeAfterKink: Value,
    kinkUtilization: Value,
    riskFactor: Value)

  datatype Timestamps = Timestamps(createdAt: Value, blockTimestamp: Value)

  datatype CreationResult = CreationResult(
    positionAddress: Value,
    transactionHash: Value,
    poolId: Value,
    tokenA: TokenInfo,
    tokenB: TokenInfo,
    tokenFee: TokenInfo,
    parameters: Parameters,
    timestamps: Timestamps,
    gasUsed: Value,
    success: Value)

  /** The parameters: the fee tier and the ticks fall back to the AMM event
      (its ticks are signed integers wrapped as `{bits}`) and then to 1 and
      0; the curve parameters fall back to "0" and the risk factor to 0. */
  function ParametersOf(eventData: Value, positionData: Value): Parameters {
    Parameters(
      Or(Or(Prop(eventData, "fee_tier"), Prop(positionData, "fee_tier")), Int(1)),
      Or(Or(Prop(eventData, "tick_lower"), Prop(Prop(positionData, "tick_lower"), "bits")), Int(0)),
      Or(Or(Prop(eventData, "tick_upper"), Prop(Prop(positionData, "tick_upper"), "bits")), Int(0)),
      Or(Prop(eventData, "slope_before_kink"), Str("0")),
      Or(Prop(eventData, "slope_after_kink"), Str("0")),
      Or(Prop(eventData, "kink_utilization"), Str("0")),
      Or(Prop(eventData, "risk_factor"), Int(0)))
  }

  /** The record built from the transaction, the loan event's data and the
      AMM event's data (`undefined` when that event is missing). */
  function ResultOf(transaction: Value, eventData: Value, positionData: Value): CreationResult {
    CreationResult(
      Prop(eventData, "position"),
      Prop(transaction, "hash"),
      Prop(positionData, "pool_id"),
      ExtractTokenInfo(Prop(eventData, "token_a")),
      ExtractTokenInfo(Prop(eventData, "token_b")),
      ExtractTokenInfo(Prop(eventData, "token_fee")),
      ParametersOf(eventData, positionData),
      Timestamps(Or(Prop(eventData, "created_at_ts"), Prop(transaction, "timestamp")),
                 Prop(transaction, "timestamp")),
      Prop(transaction, "gas_used"),
      Success(transaction))
  }

  /** The body of the `try`: `null` for a falsy transaction, the resolver's
      error for any other kind; both searches run (either may throw) before
      the check that the loan event carries data. */
  function Decode(transaction: Value): Throws<Option<CreationResult>> {
    if !Truthy(transaction) then Ok(None)
    else
      var user :- ToUserTransaction(transaction);
      // `user.events` cannot throw: the resolver only lets objects through.
      var events := Prop(user, "events");
      var loanEvent :- FindEvent(events, CREATED_TAG);
      var positionEvent :- FindEvent(events, POSITION_TAG);
      var eventData := EventData(loanEvent);
      if !Truthy(eventData) then Ok(None)
      else Ok(Some(ResultOf(user, eventData, EventData(positionEvent))))
  }

  /** The normaliser: every error is caught and reported as `null`. */
  function NormalizeLoanPositionCreation(transaction: Value): (r: Option<CreationResult>)
    ensures !Truthy(transaction) ==> r.None?
    ensures r.Some? ==> IsUserTransaction(transaction) == Ok(true) && Prop(transaction, "events").Arr?
    ensures r.Some? ==> r.value.timestamps.blockTimestamp == Prop(transaction, "timestamp")
  {
    match Decode(transaction)
    case Ok(r) => r
    case Err(_) => None
  }

  /** The data the search reports for a tag: the first matching event's
      `data`, or `undefined` when no event matches or the search throws. */
  function SearchData(transaction: Value, tag: string): Value {
    var found := FindEvent(Prop(transaction, "events"), tag);
    if found.Ok? then EventData(found.value) else Undefined
  }

  /** The result exists exactly when the transaction is a user transaction,
      neither search throws and the loan event carries data; it is then built
      from the two events' data. */
  lemma NormalizeCharacterised(transaction: Value)
    ensures var events := Prop(transaction, "events");
      NormalizeLoanPositionCreation(transaction).Some? <==>
        (IsUserTransaction(transaction) == Ok(true)
         && FindEvent(events, CREATED_TAG).Ok? && FindEvent(events, POSITION_TAG).Ok?
         && Truthy(SearchData(transaction, CREATED_TAG)))
    ensures NormalizeLoanPositionCreation(transaction).Some? ==>
      NormalizeLoanPositionCreation(transaction).value
        == ResultOf(transaction, SearchData(transaction, CREATED_TAG), SearchData(transaction, POSITION_TAG))
  {
  }

  // Typed events.

  /** A typed `LoanPositionCreated` event. Token references are wrapped
      addresses `{inner}`, the ticks are numbers, the curve parameters and
      the creation time u64 quantities sent as decimal strings. */
  datatype LoanPositionCreated = LoanPositionCreated(
    position: string, tokenA: string, tokenB: string, tokenFee: string,
    feeTier: nat, tickLower: int, tickUpper: int,
    slopeBeforeKink: nat, slopeAfterKink: nat, kinkUtilization: nat, riskFactor: nat,
    createdAtTs: nat)

  /** A typed `CreatePositionEvent` of the AMM: the pool, its fee tier and
      the tick range as the raw bits of two i32 values. */
  datatype CreatePosition = CreatePosition(poolId: string, feeTier: nat, tickLowerBits: nat, tickUpperBits: nat)

  function Wrapped(address: string): Value {
    Obj([("inner", Str(address))])
  }

  const CREATED_KEYS: seq<string> := [
    "position", "token_a", "token_b", "token_fee", "fee_tier", "tick_lower", "tick_upper",
    "slope_before_kink", "slope_after_kink", "kink_utilization", "risk_factor", "created_at_ts"]

  function CreatedValues(c: LoanPositionCreated): seq<Value> {
    [Str(c.position), Wrapped(c.tokenA), Wrapped(c.tokenB), Wrapped(c.tokenFee),
      Int(c.feeTier), Int(c.tickLower), Int(c.tickUpper),
      Str(NatToDecimal(c.slopeBeforeKink)), Str(NatToDecimal(c.slopeAfterKink)),
      Str(NatToDecimal(c.kinkUtilization)), Int(c.riskFactor), Str(NatToDecimal(c.createdAtTs))]
  }

  function CreatedData(c: LoanPositionCreated): Value {
    Obj(Zip(CREATED_KEYS, CreatedValues(c)))
  }

  const POSITION_KEYS: seq<string> := ["pool_id", "fee_tier", "tick_lower", "tick_upper"]

  function PositionValues(p: CreatePosition): seq<Value> {
    [Str(p.poolId), Int(p.feeTier), Obj([("bits", Int(p.tickLowerBits))]), Obj([("bits", Int(p.tickUpperBits))])]
  }

  /** The AMM event's data, or `undefined` when the event is absent. */
  function PositionData(p: Option<CreatePosition>): Value {
    if p.Some? then Obj(Zip(POSITION_KEYS, PositionValues(p.value))) else Undefined
  }

  /** The first non-zero of the loan event's value and the AMM event's, or the
      default. */
  function FirstNonZero(fromLoan: int, fromPosition: Option<nat>, default: int): int {
    if fromLoan != 0 then fromLoan
    else if fromPosition.Some? && fromPosition.value != 0 then fromPosition.value
    else default
  }

  /** Addresses of a typed event are never empty. */
  predicate WellFormed(c: LoanPositionCreated) {
    c.tokenA != "" && c.tokenB != "" && c.tokenFee != ""
  }

  /** What the normaliser should report for typed events. A zero fee tier or
      tick in the loan event reads as missing and is replaced by the AMM
      event's, then by the default. */
  function Expected(t: Transaction, c: LoanPositionCreated, p: Option<CreatePosition>): CreationResult {
    CreationResult(
      Str(c.position), Str(t.hash),
      if p.Some? then Str(p.value.poolId) else Undefined,
      TokenInfo(Str(c.tokenA), Str(c.tokenA)),
      TokenInfo(Str(c.tokenB), Str(c.tokenB)),
      TokenInfo(Str(c.tokenFee), Str(c.tokenFee)),
      ExpectedParameters(c, p),
      Timestamps(Str(NatToDecimal(c.createdAtTs)), Str(t.timestamp)),
      Str(t.gasUsed),
      Bool(t.success || t.vmStatus == EXECUTED_SUCCESSFULLY))
  }

  function ExpectedParameters(c: LoanPositionCreated, p: Option<CreatePosition>): Parameters {
    Parameters(
      Int(FirstNonZero(c.feeTier, if p.Some? then Some(p.value.feeTier) else None, 1)),
      Int(FirstNonZero(c.tickLower, if p.Some? then Some(p.value.tickLowerBits) else None, 0)),
      Int(FirstNonZero(c.tickUpper, if p.Some? then Some(p.value.tickUpperBits) else None, 0)),
      Str(NatToDecimal(c.slopeBeforeKink)), Str(NatToDecimal(c.slopeAfterKink)),
      Str(NatToDecimal(c.kinkUtilization)), Int(c.riskFactor))
  }

  // Reading the encoded events back, field by field (in three parts, to
  // keep each proof small).

  lemma CreatedLookup(c: LoanPositionCreated)
    ensures forall i :: 0 <= i < 12 ==>
      Lookup(Zip(CREATED_KEYS, CreatedValues(c)), CREATED_KEYS[i]) == CreatedValues(c)[i]
  {
    assert DistinctStrings(CREATED_KEYS);
    LookupZip(CREATED_KEYS, CreatedValues(c));
  }

  lemma CreatedFieldsTokens(c: LoanPositionCreated)
    ensures var v := CreatedData(c);
      && Prop(v, "position") == Str(c.position)
      && Prop(v, "token_a") == Wrapped(c.tokenA)
      && Prop(v, "token_b") == Wrapped(c.tokenB)
      && Prop(v, "token_fee") == Wrapped(c.tokenFee)
  {
    CreatedLookup(c);
    assert CREATED_KEYS[0] == "position";
    assert CREATED_KEYS[1] == "token_a";
    assert CREATED_KEYS[2] == "token_b";
    assert CREATED_KEYS[3] == "token_fee";
  }

  lemma CreatedFieldsRange(c: LoanPositionCreated)
    ensures var v := CreatedData(c);
      && Prop(v, "fee_tier") == Int(c.feeTier)
      && Prop(v, "tick_lower") == Int(c.tickLower)
      && Prop(v, "tick_upper") == Int(c.tickUpper)
      && Prop(v, "created_at_ts") == Str(NatToDecimal(c.createdAtTs))
  {
    CreatedLookup(c);
    assert CREATED_KEYS[4] == "fee_tier";
    assert CREATED_KEYS[5] == "tick_lower";
    assert CREATED_KEYS[6] == "tick_upper";
    assert CREATED_KEYS[11] == "created_at_ts";
  }

  lemma CreatedFieldsCurve(c: LoanPositionCreated)
    ensures var v := CreatedData(c);
      && Prop(v, "slope_before_kink") == Str(NatToDecimal(c.slopeBeforeKink))
      && Prop(v, "slope_after_kink") == Str(NatToDecimal(c.slopeAfterKink))
      && Prop(v, "kink_utilization") == Str(NatToDecimal(c.kinkUtilization))
      && Prop(v, "risk_factor") == Int(c.riskFactor)
  {
    CreatedLookup(c);
    assert CREATED_KEYS[7] == "slope_before_kink";
    assert CREATED_KEYS[8] == "slope_after_kink";
    assert CREATED_KEYS[9] == "kink_utilization";
    assert CREATED_KEYS[10] == "risk_factor";
  }

  lemma PositionFields(p: CreatePosition)
    ensures var v := PositionData(Some(p));
      && Prop(v, "pool_id") == Str(p.poolId)
      && Prop(v, "fee_tier") == Int(p.feeTier)
      && Prop(Prop(v, "tick_lower"), "bits") == Int(p.tickLowerBits)
      && Prop(Prop(v, "tick_upper"), "bits") == Int(p.tickUpperBits)
  {
    assert DistinctStrings(POSITION_KEYS);
    LookupZip(POSITION_KEYS, PositionValues(p));
    assert POSITION_KEYS[0] == "pool_id";
    assert POSITION_KEYS[1] == "fee_tier";
    assert POSITION_KEYS[2] == "tick_lower";
    assert POSITION_KEYS[3] == "tick_upper";
  }

  /** Round trip: a user transaction whose first `LoanPositionCreated` event
      carries a typed loan position, and whose first `CreatePositionEvent`
      (if any) carries a typed AMM position, normalises to `Expected`. */
  lemma NormalizeEncoded(t: Transaction, c: LoanPositionCreated, p: Option<CreatePosition>)
    requires t.kind == USER_TRANSACTION && WellFormed(c)
    requires TaggedData(t, CREATED_TAG) == CreatedData(c)
    requires TaggedData(t, POSITION_TAG) == PositionData(p)
    ensures NormalizeLoanPositionCreation(EncodeTransaction(t)) == Some(Expected(t, c, p))
  {
    SearchesEncoded(t, c, p);
    ResultOfEncoded(t, c, p);
  }

  /** The two searches on an encoded user transaction find the typed events'
      data. */
  lemma SearchesEncoded(t: Transaction, c: LoanPositionCreated, p: Option<CreatePosition>)
    requires t.kind == USER_TRANSACTION
    requires TaggedData(t, CREATED_TAG) == CreatedData(c)
    requires TaggedData(t, POSITION_TAG) == PositionData(p)
    ensures NormalizeLoanPositionCreation(EncodeTransaction(t))
         == Some(ResultOf(EncodeTransaction(t), CreatedData(c), PositionData(p)))
  {
    var tx := EncodeTransaction(t);
    var loanEvent := EncodeFound(FirstTagged(t.events, CREATED_TAG));
    var positionEvent := EncodeFound(FirstTagged(t.events, POSITION_TAG));
    assert IsUserTransaction(tx) == Ok(true) by { EncodedKind(t); }
    assert FindEvent(Prop(tx, "events"), CREATED_TAG) == Ok(loanEvent) && EventData(loanEvent) == CreatedData(c) by {
      FindEventEncoded(t, CREATED_TAG);
    }
    assert FindEvent(Prop(tx, "events"), POSITION_TAG) == Ok(positionEvent)
        && EventData(positionEvent) == PositionData(p) by {
      FindEventEncoded(t, POSITION_TAG);
    }
    DecodeFound(tx, loanEvent, positionEvent);
  }

  /** When both searches succeed and the loan event carries data, the result
      is built from the two events' data. */
  lemma DecodeFound(transaction: Value, loanEvent: Option<Value>, positionEvent: Option<Value>)
    requires IsUserTransaction(transaction) == Ok(true)
    requires FindEvent(Prop(transaction, "events"), CREATED_TAG) == Ok(loanEvent)
    requires FindEvent(Prop(transaction, "events"), POSITION_TAG) == Ok(positionEvent)
    requires Truthy(EventData(loanEvent))
    ensures NormalizeLoanPositionCreation(transaction)
         == Some(ResultOf(transaction, EventData(loanEvent), EventData(positionEvent)))
  {
  }

  lemma ResultOfEncoded(t: Transaction, c: LoanPositionCreated, p: Option<CreatePosition>)
    requires WellFormed(c)
    ensures ResultOf(EncodeTransaction(t), CreatedData(c), PositionData(p)) == Expected(t, c, p)
  {
    var tx := EncodeTransaction(t);
    var eventData := CreatedData(c);
    var positionData := PositionData(p);
    assert Prop(tx, "hash") == Str(t.hash) && Prop(tx, "timestamp") == Str(t.timestamp)
        && Prop(tx, "gas_used") == Str(t.gasUsed) by {
      TransactionFields(t);
    }
    assert Success(tx) == Bool(t.success || t.vmStatus == EXECUTED_SUCCESSFULLY) by {
      EncodedSuccess(t);
    }
    assert Prop(eventData, "position") == Str(c.position) by {
      CreatedFieldsTokens(c);
    }
    TokensPart(c);
    assert Prop(eventData, "created_at_ts") == Str(NatToDecimal(c.createdAtTs)) by {
      CreatedFieldsRange(c);
    }
    assert Prop(positionData, "pool_id") == (if p.Some? then Str(p.value.poolId) else Undefined) by {
      if p.Some? {
        PositionFields(p.value);
      }
    }
    ParametersEncoded(c, p);
  }

  /** A wrapped, non-empty address resolves to itself. */
  lemma WrappedPart(address: string)
    requires address != ""
    ensures ExtractTokenInfo(Wrapped(address)) == TokenInfo(Str(address), Str(address))
  {
    assert Prop(Wrapped(address), "inner") == Str(address);
  }

  lemma TokensPart(c: LoanPositionCreated)
    requires WellFormed(c)
    ensures var v := CreatedData(c);
      && ExtractTokenInfo(Prop(v, "token_a")) == TokenInfo(Str(c.tokenA), Str(c.tokenA))
      && ExtractTokenInfo(Prop(v, "token_b")) == TokenInfo(Str(c.tokenB), Str(c.tokenB))
      && ExtractTokenInfo(Prop(v, "token_fee")) == TokenInfo(Str(c.tokenFee), Str(c.tokenFee))
  {
    CreatedFieldsTokens(c);
    WrappedPart(c.tokenA);
    WrappedPart(c.tokenB);
    WrappedPart(c.tokenFee);
  }

  lemma ParametersEncoded(c: LoanPositionCreated, p: Option<CreatePosition>)
    ensures ParametersOf(CreatedData(c), PositionData(p)) == ExpectedParameters(c, p)
  {
    RangeEncoded(c, p);
    CurveEncoded(c, p);
  }

  /** The fee tier and the ticks, with their fallbacks. */
  lemma RangeEncoded(c: LoanPositionCreated, p: Option<CreatePosition>)
    ensures var r := ParametersOf(CreatedData(c), PositionData(p));
      var e := ExpectedParameters(c, p);
      r.feeTier == e.feeTier && r.tickLower == e.tickLower && r.tickUpper == e.tickUpper
  {
    var eventData := CreatedData(c);
    var positionData := PositionData(p);
    assert Prop(eventData, "fee_tier") == Int(c.feeTier)
        && Prop(eventData, "tick_lower") == Int(c.tickLower)
        && Prop(eventData, "tick_upper") == Int(c.tickUpper) by {
      CreatedFieldsRange(c);
    }
    var feeTier := if p.Some? then Some(p.value.feeTier) else None;
    var lowerBits := if p.Some? then Some(p.value.tickLowerBits) else None;
    var upperBits := if p.Some? then Some(p.value.tickUpperBits) else None;
    assert Prop(positionData, "fee_tier") == IntOrUndefined(feeTier)
        && Prop(Prop(positionData, "tick_lower"), "bits") == IntOrUndefined(lowerBits)
        && Prop(Prop(positionData, "tick_upper"), "bits") == IntOrUndefined(upperBits) by {
      if p.Some? {
        PositionFields(p.value);
      }
    }
    FallbackPart(c.feeTier, feeTier, 1);
    FallbackPart(c.tickLower, lowerBits, 0);
    FallbackPart(c.tickUpper, upperBits, 0);
  }

  /** The curve parameters and the risk factor, which have no fallback in
      the AMM event. */
  lemma CurveEncoded(c: LoanPositionCreated, p: Option<CreatePosition>)
    ensures var r := ParametersOf(CreatedData(c), PositionData(p));
      var e := ExpectedParameters(c, p);
      && r.slopeBeforeKink == e.slopeBeforeKink && r.slopeAfterKink == e.slopeAfterKink
      && r.kinkUtilization == e.kinkUtilization && r.riskFactor == e.riskFactor
  {
    CreatedFieldsCurve(c);
  }

  function IntOrUndefined(n: Option<nat>): Value {
    if n.Some? then Int(n.value) else Undefined
  }

  /** The `||` chain of a parameter computes `FirstNonZero`. */
  lemma FallbackPart(fromLoan: int, fromPosition: Option<nat>, default: int)
    ensures Or(Or(Int(fromLoan), IntOrUndefined(fromPosition)), Int(default))
         == Int(FirstNonZero(fromLoan, fromPosition, default))
  {
  }

  /** A fee tier of 0 in the loan event reads as missing: without an AMM
      event the reported tier is 1, with one it is the AMM event's. */
  lemma ZeroFeeTierFallsThrough(eventData: Value, positionData: Value)
    requires Prop(eventData, "fee_tier") == Int(0)
    ensures !Truthy(Prop(positionData, "fee_tier")) ==> ParametersOf(eventData, positionData).feeTier == Int(1)
    ensures Truthy(Prop(positionData, "fee_tier")) ==>
      ParametersOf(eventData, positionData).feeTier == Prop(positionData, "fee_tier")
  {
  }

  /** Without a `CreatePositionEvent` there is no pool id, and the ticks and
      fee tier come from the loan event or the defaults. */
  lemma WithoutAmmEvent(transaction: Value, eventData: Value)
    ensures var r := ResultOf(transaction, eventData, Undefined);
      && r.poolId == Undefined
      && r.parameters.feeTier == Or(Prop(eventData, "fee_tier"), Int(1))
      && r.parameters.tickLower == Or(Prop(eventData, "tick_lower"), Int(0))
      && r.parameters.tickUpper == Or(Prop(eventData, "tick_upper"), Int(0))
  {
  }

  /** Only user transactions are normalised. */
  lemma NonUserTransactionRejected(t: Transaction)
    requires t.kind != USER_TRANSACTION
    ensures NormalizeLoanPositionCreation(EncodeTransaction(t)).None?
  {
    EncodedKind(t);
  }

  /** Without a `LoanPositionCreated` event there is no result, whatever the
      AMM event says. */
  lemma NormalizeWithoutEvent(t: Transaction)
    requires FirstTagged(t.events, CREATED_TAG).None?
    ensures NormalizeLoanPositionCreation(EncodeTransaction(t)).None?
  {
    EncodedKind(t);
    FindEventEncoded(t, CREATED_TAG);
    FindEventEncoded(t, POSITION_TAG);
  }

  /** Event data without any of the fields: the curve parameters read "0",
      the risk factor 0, the tokens empty, and the creation time is the
      block's. */
  lemma MissingFieldsDefault(transaction: Value)
    ensures var r := ResultOf(transaction, Obj([]), Undefined);
      && r.parameters == Parameters(Int(1), Int(0), Int(0), Str("0"), Str("0"), Str("0"), Int(0))
      && r.tokenA == TokenInfo(Str(""), Str("")) && r.tokenFee == TokenInfo(Str(""), Str(""))
      && r.timestamps.createdAt == r.timestamps.blockTimestamp
      && r.positionAddress == Undefined
  {
  }
}

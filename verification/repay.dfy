/** `normalizeLoanSlotClaimYieldAndRepay`
    (src/libs/normalizers/normalizeLoanSlotClaimYieldAndRepay.ts): a borrower
    claims a loan slot's yield and repays from it. The result merges up to
    three events of one user transaction: `YieldClaimed`, `LoanRepaid` and
    `DebtIndexUpdated`. */
module LoanSlotClaimYieldAndRepay {
  import opened Outcome
  import opened Decimal
  import opened JsValue
  import opened Events
  import opened TransactionTypeResolver

  const YIELD_TAG: string := "YieldClaimed"
  const REPAID_TAG: string := "LoanRepaid"
  const DEBT_TAG: string := "DebtIndexUpdated"

  datatype RepayResult = RepayResult(
    positionAddress: Value,
    claimerAddress: Value,
    loanSlotAddress: Value,
    yieldAmount: string,
    feeAssetAAmount: string,
    feeAssetBAmount: string,
    totalRewardAssets: string,
    repayAmount: string,
    principalPortion: string,
    interestPortion: string,
    remainingPrincipal: string,
    loanFullyRepaid: Value,
    oldDebtIndex: string,
    newDebtIndex: string,
    apr: string,
    timeElapsed: string,
    transactionHash: Value,
    timestamp: Value,
    gasUsed: Value,
    success: Value)

  /** The record built from the transaction and the three events' data (each
      `undefined` when its event is missing). The addresses prefer the yield
      event, then the repayment, then "" ; the time prefers the yield event,
      then the repayment, then the debt update, then the transaction. */
  function ResultOf(transaction: Value, yieldData: Value, repayData: Value, debtData: Value): RepayResult {
    RepayResult(
      Or(Or(Prop(yieldData, "position"), Prop(repayData, "position")), Str("")),
      Or(Or(Prop(yieldData, "claimer"), Prop(repayData, "borrower")), Str("")),
      Or(Or(Prop(yieldData, "loan_slot"), Prop(repayData, "loan_slot")), Str("")),
      ToStringOrZero(Prop(yieldData, "yield_amount")),
      ToStringOrZero(Prop(yieldData, "fee_asset_a_amount")),
      ToStringOrZero(Prop(yieldData, "fee_asset_b_amount")),
      ToStringOrZero(Prop(yieldData, "total_reward_assets")),
      ToStringOrZero(Prop(repayData, "amount")),
      ToStringOrZero(Prop(repayData, "principal_portion")),
      ToStringOrZero(Prop(repayData, "interest_portion")),
      ToStringOrZero(Prop(repayData, "remaining_principal")),
      Or(Prop(repayData, "loan_fully_repaid"), Bool(false)),
      ToStringOrZero(Prop(debtData, "old_debt_idx")),
      ToStringOrZero(Prop(debtData, "new_debt_idx")),
      ToStringOrZero(Prop(debtData, "apr")),
      ToStringOrZero(Prop(debtData, "time_elapsed")),
      Prop(transaction, "hash"),
      Or(Or(Or(Prop(yieldData, "timestamp"), Prop(repayData, "timestamp")), Prop(debtData, "timestamp")),
         Prop(transaction, "timestamp")),
      Prop(transaction, "gas_used"),
      Success(transaction))
  }

  /** The fields of each event's data the record reads through `toString`. */
  const YIELD_AMOUNTS: seq<string> := ["yield_amount", "fee_asset_a_amount", "fee_asset_b_amount", "total_reward_assets"]
  const REPAID_AMOUNTS: seq<string> := ["amount", "principal_portion", "interest_portion", "remaining_principal"]
  const DEBT_AMOUNTS: seq<string> := ["old_debt_idx", "new_debt_idx", "apr", "time_elapsed"]

  /** Some amount of the three events' data has a `toString` that throws. */
  predicate AmountsThrow(yieldData: Value, repayData: Value, debtData: Value) {
    SomeToStrThrows(yieldData, YIELD_AMOUNTS) || SomeToStrThrows(repayData, REPAID_AMOUNTS)
    || SomeToStrThrows(debtData, DEBT_AMOUNTS)
  }

  /** The body of the `try`: `null` for a falsy transaction, the resolver's
      error for any other kind; all three searches run (any of them may
      throw) before the check that the yield or the repayment event carries
      data; building the record throws the TypeError of an amount whose
      `toString` throws. */
  function Decode(transaction: Value): Throws<Option<RepayResult>> {
    if !Truthy(transaction) then Ok(None)
    else
      var user :- ToUserTransaction(transaction);
      // `user.events` cannot throw: the resolver only lets objects through.
      var events := Prop(user, "events");
      var yieldEvent :- FindEvent(events, YIELD_TAG);
      var repayEvent :- FindEvent(events, REPAID_TAG);
      var debtEvent :- FindEvent(events, DEBT_TAG);
      var yieldData := EventData(yieldEvent);
      var repayData := EventData(repayEvent);
      var debtData := EventData(debtEvent);
      if !Truthy(yieldData) && !Truthy(repayData) then Ok(None)
      else if AmountsThrow(yieldData, repayData, debtData) then Err(TypeError)
      else Ok(Some(ResultOf(user, yieldData, repayData, debtData)))
  }

  /** The normaliser: every error is caught and reported as `null`. */
  function NormalizeLoanSlotClaimYieldAndRepay(transaction: Value): (r: Option<RepayResult>)
    ensures !Truthy(transaction) ==> r.None?
    ensures r.Some? ==> IsUserTransaction(transaction) == Ok(true) && Prop(transaction, "events").Arr?
    ensures r.Some? ==> Truthy(SearchData(transaction, YIELD_TAG)) || Truthy(SearchData(transaction, REPAID_TAG))
  {
    match Decode(transaction)
    case Ok(r) => r
    case Err(_) => None
  }

  /** The data the search reports for a tag: the first matching event's
      `data`, or `undefined` when no event matches or the search throws. */
  function SearchData(transaction: Value, tag: string): Value {
    var found := FindEvent(Prop(transaction, "events"), tag);
    if found.Ok? then EventData(found.value) else Undefined
  }

  /** The result exists exactly when the transaction is a user transaction,
      none of the three searches throws, the yield or the repayment event
      carries data and every amount renders; it is then built from the three
      events' data. */
  lemma NormalizeCharacterised(transaction: Value)
    ensures var events := Prop(transaction, "events");
      NormalizeLoanSlotClaimYieldAndRepay(transaction).Some? <==>
        (IsUserTransaction(transaction) == Ok(true)
         && FindEvent(events, YIELD_TAG).Ok? && FindEvent(events, REPAID_TAG).Ok?
         && FindEvent(events, DEBT_TAG).Ok?
         && (Truthy(SearchData(transaction, YIELD_TAG)) || Truthy(SearchData(transaction, REPAID_TAG)))
         && !AmountsThrow(SearchData(transaction, YIELD_TAG), SearchData(transaction, REPAID_TAG),
                          SearchData(transaction, DEBT_TAG)))
    ensures NormalizeLoanSlotClaimYieldAndRepay(transaction).Some? ==>
      NormalizeLoanSlotClaimYieldAndRepay(transaction).value
        == ResultOf(transaction, SearchData(transaction, YIELD_TAG), SearchData(transaction, REPAID_TAG),
                    SearchData(transaction, DEBT_TAG))
  {
  }

  // Typed events.

  /** `YieldClaimed` of a loan slot: the yield and the fees it collected. */
  datatype LoanYieldClaimed = LoanYieldClaimed(
    position: string, claimer: string, loanSlot: string,
    yieldAmount: nat, feeAssetA: nat, feeAssetB: nat, totalRewardAssets: nat, timestamp: nat)

  /** `LoanRepaid`: the repayment split into principal and interest. */
  datatype LoanRepaid = LoanRepaid(
    position: string, borrower: string, loanSlot: string,
    amount: nat, principalPortion: nat, interestPortion: nat, remainingPrincipal: nat,
    loanFullyRepaid: bool, timestamp: nat)

  /** `DebtIndexUpdated`: the debt index moving on with the elapsed time. */
  datatype DebtIndexUpdated = DebtIndexUpdated(
    oldDebtIdx: nat, newDebtIdx: nat, apr: nat, timeElapsed: nat, timestamp: nat)

  const YIELD_KEYS: seq<string> := [
    "position", "claimer", "loan_slot", "yield_amount", "fee_asset_a_amount",
    "fee_asset_b_amount", "total_reward_assets", "timestamp"]

  function YieldValues(y: LoanYieldClaimed): seq<Value> {
    [Str(y.position), Str(y.claimer), Str(y.loanSlot), Str(NatToDecimal(y.yieldAmount)),
      Str(NatToDecimal(y.feeAssetA)), Str(NatToDecimal(y.feeAssetB)),
      Str(NatToDecimal(y.totalRewardAssets)), Str(NatToDecimal(y.timestamp))]
  }

  const REPAID_KEYS: seq<string> := [
    "position", "borrower", "loan_slot", "amount", "principal_portion", "interest_portion",
    "remaining_principal", "loan_fully_repaid", "timestamp"]

  function RepaidValues(r: LoanRepaid): seq<Value> {
    [Str(r.position), Str(r.borrower), Str(r.loanSlot), Str(NatToDecimal(r.amount)),
      Str(NatToDecimal(r.principalPortion)), Str(NatToDecimal(r.interestPortion)),
      Str(NatToDecimal(r.remainingPrincipal)), Bool(r.loanFullyRepaid), Str(NatToDecimal(r.timestamp))]
  }

  const DEBT_KEYS: seq<string> := ["old_debt_idx", "new_debt_idx", "apr", "time_elapsed", "timestamp"]

  function DebtValues(d: DebtIndexUpdated): seq<Value> {
    [Str(NatToDecimal(d.oldDebtIdx)), Str(NatToDecimal(d.newDebtIdx)), Str(NatToDecimal(d.apr)),
      Str(NatToDecimal(d.timeElapsed)), Str(NatToDecimal(d.timestamp))]
  }

  /** An optional typed event as the data the client sees: an object, or
      `undefined` when the event is absent. */
  function YieldData(y: Option<LoanYieldClaimed>): Value {
    if y.Some? then Obj(Zip(YIELD_KEYS, YieldValues(y.value))) else Undefined
  }

  function RepaidData(r: Option<LoanRepaid>): Value {
    if r.Some? then Obj(Zip(REPAID_KEYS, RepaidValues(r.value))) else Undefined
  }

  function DebtData(d: Option<DebtIndexUpdated>): Value {
    if d.Some? then Obj(Zip(DEBT_KEYS, DebtValues(d.value))) else Undefined
  }

  /** The first non-empty address of the yield event and the repayment, or
      "" when neither has one. */
  function PreferredAddress(fromYield: Option<string>, fromRepay: Option<string>): string {
    if fromYield.Some? && fromYield.value != "" then fromYield.value
    else if fromRepay.Some? && fromRepay.value != "" then fromRepay.value
    else ""
  }

  /** What the normaliser should report for typed events: each field from
      its own event with "0" when that event is absent, the addresses and the
      time from the first event that has them. */
  function Expected(t: Transaction, y: Option<LoanYieldClaimed>, r: Option<LoanRepaid>,
                    d: Option<DebtIndexUpdated>): RepayResult {
    RepayResult(
      Str(PreferredAddress(if y.Some? then Some(y.value.position) else None,
                           if r.Some? then Some(r.value.position) else None)),
      Str(PreferredAddress(if y.Some? then Some(y.value.claimer) else None,
                           if r.Some? then Some(r.value.borrower) else None)),
      Str(PreferredAddress(if y.Some? then Some(y.value.loanSlot) else None,
                           if r.Some? then Some(r.value.loanSlot) else None)),
      (if y.Some? then NatToDecimal(y.value.yieldAmount) else "0"), (if y.Some? then NatToDecimal(y.value.feeAssetA) else "0"),
      (if y.Some? then NatToDecimal(y.value.feeAssetB) else "0"), (if y.Some? then NatToDecimal(y.value.totalRewardAssets) else "0"),
      (if r.Some? then NatToDecimal(r.value.amount) else "0"), (if r.Some? then NatToDecimal(r.value.principalPortion) else "0"),
      (if r.Some? then NatToDecimal(r.value.interestPortion) else "0"), (if r.Some? then NatToDecimal(r.value.remainingPrincipal) else "0"),
      Bool(r.Some? && r.value.loanFullyRepaid),
      (if d.Some? then NatToDecimal(d.value.oldDebtIdx) else "0"), (if d.Some? then NatToDecimal(d.value.newDebtIdx) else "0"),
      (if d.Some? then NatToDecimal(d.value.apr) else "0"), (if d.Some? then NatToDecimal(d.value.timeElapsed) else "0"),
      Str(t.hash),
      Str(ExpectedTime(t, y, r, d)),
      Str(t.gasUsed),
      Bool(t.success || t.vmStatus == EXECUTED_SUCCESSFULLY))
  }

  /** The time of the first present event, in the order yield, repayment,
      debt update, and the transaction's otherwise. */
  function ExpectedTime(t: Transaction, y: Option<LoanYieldClaimed>, r: Option<LoanRepaid>,
                        d: Option<DebtIndexUpdated>): string {
    if y.Some? then NatToDecimal(y.value.timestamp)
    else if r.Some? then NatToDecimal(r.value.timestamp)
    else if d.Some? then NatToDecimal(d.value.timestamp)
    else t.timestamp
  }

  // Reading the encoded events back, field by field.

  lemma YieldLookup(y: LoanYieldClaimed)
    ensures forall i :: 0 <= i < 8 ==> Lookup(Zip(YIELD_KEYS, YieldValues(y)), YIELD_KEYS[i]) == YieldValues(y)[i]
  {
    assert DistinctStrings(YIELD_KEYS);
    LookupZip(YIELD_KEYS, YieldValues(y));
  }

  lemma YieldFieldsHead(y: LoanYieldClaimed)
    ensures var v := YieldData(Some(y));
      && Prop(v, "position") == Str(y.position)
      && Prop(v, "claimer") == Str(y.claimer)
      && Prop(v, "loan_slot") == Str(y.loanSlot)
      && Prop(v, "yield_amount") == Str(NatToDecimal(y.yieldAmount))
  {
    YieldLookup(y);
    assert YIELD_KEYS[0] == "position";
    assert YIELD_KEYS[1] == "claimer";
    assert YIELD_KEYS[2] == "loan_slot";
    assert YIELD_KEYS[3] == "yield_amount";
  }

  lemma YieldFieldsTail(y: LoanYieldClaimed)
    ensures var v := YieldData(Some(y));
      && Prop(v, "fee_asset_a_amount") == Str(NatToDecimal(y.feeAssetA))
      && Prop(v, "fee_asset_b_amount") == Str(NatToDecimal(y.feeAssetB))
      && Prop(v, "total_reward_assets") == Str(NatToDecimal(y.totalRewardAssets))
      && Prop(v, "timestamp") == Str(NatToDecimal(y.timestamp))
  {
    YieldLookup(y);
    assert YIELD_KEYS[4] == "fee_asset_a_amount";
    assert YIELD_KEYS[5] == "fee_asset_b_amount";
    assert YIELD_KEYS[6] == "total_reward_assets";
    assert YIELD_KEYS[7] == "timestamp";
  }

  lemma RepaidLookup(r: LoanRepaid)
    ensures forall i :: 0 <= i < 9 ==> Lookup(Zip(REPAID_KEYS, RepaidValues(r)), REPAID_KEYS[i]) == RepaidValues(r)[i]
  {
    assert DistinctStrings(REPAID_KEYS);
    LookupZip(REPAID_KEYS, RepaidValues(r));
  }

  lemma RepaidFieldsHead(r: LoanRepaid)
    ensures var v := RepaidData(Some(r));
      && Prop(v, "position") == Str(r.position)
      && Prop(v, "borrower") == Str(r.borrower)
      && Prop(v, "loan_slot") == Str(r.loanSlot)
      && Prop(v, "amount") == Str(NatToDecimal(r.amount))
  {
    RepaidLookup(r);
    assert REPAID_KEYS[0] == "position";
    assert REPAID_KEYS[1] == "borrower";
    assert REPAID_KEYS[2] == "loan_slot";
    assert REPAID_KEYS[3] == "amount";
  }

  lemma RepaidFieldsTail(r: LoanRepaid)
    ensures var v := RepaidData(Some(r));
      && Prop(v, "principal_portion") == Str(NatToDecimal(r.principalPortion))
      && Prop(v, "interest_portion") == Str(NatToDecimal(r.interestPortion))
      && Prop(v, "remaining_principal") == Str(NatToDecimal(r.remainingPrincipal))
      && Prop(v, "loan_fully_repaid") == Bool(r.loanFullyRepaid)
      && Prop(v, "timestamp") == Str(NatToDecimal(r.timestamp))
  {
    RepaidLookup(r);
    assert REPAID_KEYS[4] == "principal_portion";
    assert REPAID_KEYS[5] == "interest_portion";
    assert REPAID_KEYS[6] == "remaining_principal";
    assert REPAID_KEYS[7] == "loan_fully_repaid";
    assert REPAID_KEYS[8] == "timestamp";
  }

  lemma DebtFields(d: DebtIndexUpdated)
    ensures var v := DebtData(Some(d));
      && Prop(v, "old_debt_idx") == Str(NatToDecimal(d.oldDebtIdx))
      && Prop(v, "new_debt_idx") == Str(NatToDecimal(d.newDebtIdx))
      && Prop(v, "apr") == Str(NatToDecimal(d.apr))
      && Prop(v, "time_elapsed") == Str(NatToDecimal(d.timeElapsed))
      && Prop(v, "timestamp") == Str(NatToDecimal(d.timestamp))
  {
    assert DistinctStrings(DEBT_KEYS);
    LookupZip(DEBT_KEYS, DebtValues(d));
    assert DEBT_KEYS[0] == "old_debt_idx";
    assert DEBT_KEYS[1] == "new_debt_idx";
    assert DEBT_KEYS[2] == "apr";
    assert DEBT_KEYS[3] == "time_elapsed";
    assert DEBT_KEYS[4] == "timestamp";
  }

  /** Round trip: a user transaction whose first `YieldClaimed`, `LoanRepaid`
      and `DebtIndexUpdated` events carry typed events (each possibly
      absent), at least one of the first two present, normalises to the
      merge `Expected` describes. */
  lemma NormalizeEncoded(t: Transaction, y: Option<LoanYieldClaimed>, r: Option<LoanRepaid>,
                         d: Option<DebtIndexUpdated>)
    requires t.kind == USER_TRANSACTION
    requires TaggedData(t, YIELD_TAG) == YieldData(y)
    requires TaggedData(t, REPAID_TAG) == RepaidData(r)
    requires TaggedData(t, DEBT_TAG) == DebtData(d)
    requires y.Some? || r.Some?
    ensures NormalizeLoanSlotClaimYieldAndRepay(EncodeTransaction(t)) == Some(Expected(t, y, r, d))
  {
    SearchesEncoded(t, YieldData(y), RepaidData(r), DebtData(d));
    EventsQuiet(y, r, d);
    ResultOfEncoded(t, y, r, d);
  }

  /** The three searches on an encoded user transaction find the first
      tagged events' data, from which the record is built unless an amount
      throws. */
  lemma SearchesEncoded(t: Transaction, yieldData: Value, repayData: Value, debtData: Value)
    requires t.kind == USER_TRANSACTION
    requires TaggedData(t, YIELD_TAG) == yieldData
    requires TaggedData(t, REPAID_TAG) == repayData
    requires TaggedData(t, DEBT_TAG) == debtData
    requires Truthy(yieldData) || Truthy(repayData)
    ensures NormalizeLoanSlotClaimYieldAndRepay(EncodeTransaction(t))
         == if AmountsThrow(yieldData, repayData, debtData) then None
            else Some(ResultOf(EncodeTransaction(t), yieldData, repayData, debtData))
  {
    var tx := EncodeTransaction(t);
    var yieldEvent := EncodeFound(FirstTagged(t.events, YIELD_TAG));
    var repayEvent := EncodeFound(FirstTagged(t.events, REPAID_TAG));
    var debtEvent := EncodeFound(FirstTagged(t.events, DEBT_TAG));
    assert IsUserTransaction(tx) == Ok(true) by { EncodedKind(t); }
    assert FindEvent(Prop(tx, "events"), YIELD_TAG) == Ok(yieldEvent) && EventData(yieldEvent) == yieldData by {
      FindEventEncoded(t, YIELD_TAG);
    }
    assert FindEvent(Prop(tx, "events"), REPAID_TAG) == Ok(repayEvent) && EventData(repayEvent) == repayData by {
      FindEventEncoded(t, REPAID_TAG);
    }
    assert FindEvent(Prop(tx, "events"), DEBT_TAG) == Ok(debtEvent) && EventData(debtEvent) == debtData by {
      FindEventEncoded(t, DEBT_TAG);
    }
    DecodeFound(tx, yieldEvent, repayEvent, debtEvent);
  }

  /** When the three searches succeed and the yield or the repayment event
      carries data, the result is built from the three events' data, unless
      an amount's `toString` throws. */
  lemma DecodeFound(transaction: Value, yieldEvent: Option<Value>, repayEvent: Option<Value>,
                    debtEvent: Option<Value>)
    requires IsUserTransaction(transaction) == Ok(true)
    requires FindEvent(Prop(transaction, "events"), YIELD_TAG) == Ok(yieldEvent)
    requires FindEvent(Prop(transaction, "events"), REPAID_TAG) == Ok(repayEvent)
    requires FindEvent(Prop(transaction, "events"), DEBT_TAG) == Ok(debtEvent)
    requires Truthy(EventData(yieldEvent)) || Truthy(EventData(repayEvent))
    ensures NormalizeLoanSlotClaimYieldAndRepay(transaction)
         == if AmountsThrow(EventData(yieldEvent), EventData(repayEvent), EventData(debtEvent)) then None
            else Some(ResultOf(transaction, EventData(yieldEvent), EventData(repayEvent), EventData(debtEvent)))
  {
  }

  /** The encoded events' values are strings and booleans, which all render,
      and an absent event has no fields at all. */
  lemma EventsQuiet(y: Option<LoanYieldClaimed>, r: Option<LoanRepaid>, d: Option<DebtIndexUpdated>)
    ensures !AmountsThrow(YieldData(y), RepaidData(r), DebtData(d))
  {
    if y.Some? {
      YieldQuiet(y.value);
    }
    if r.Some? {
      RepaidQuiet(r.value);
    }
    if d.Some? {
      DebtQuiet(d.value);
    }
  }

  lemma YieldQuiet(y: LoanYieldClaimed)
    ensures !SomeToStrThrows(Obj(Zip(YIELD_KEYS, YieldValues(y))), YIELD_AMOUNTS)
  {
    var values := YieldValues(y);
    assert forall j :: 0 <= j < |values| ==> values[j].Str?;
    QuietFields(Zip(YIELD_KEYS, values), YIELD_AMOUNTS);
  }

  lemma RepaidQuiet(r: LoanRepaid)
    ensures !SomeToStrThrows(Obj(Zip(REPAID_KEYS, RepaidValues(r))), REPAID_AMOUNTS)
  {
    var values := RepaidValues(r);
    assert forall j :: 0 <= j < |values| ==> values[j].Str? || values[j].Bool?;
    QuietFields(Zip(REPAID_KEYS, values), REPAID_AMOUNTS);
  }

  lemma DebtQuiet(d: DebtIndexUpdated)
    ensures !SomeToStrThrows(Obj(Zip(DEBT_KEYS, DebtValues(d))), DEBT_AMOUNTS)
  {
    var values := DebtValues(d);
    assert forall j :: 0 <= j < |values| ==> values[j].Str?;
    QuietFields(Zip(DEBT_KEYS, values), DEBT_AMOUNTS);
  }

  lemma ResultOfEncoded(t: Transaction, y: Option<LoanYieldClaimed>, r: Option<LoanRepaid>,
                        d: Option<DebtIndexUpdated>)
    ensures ResultOf(EncodeTransaction(t), YieldData(y), RepaidData(r), DebtData(d)) == Expected(t, y, r, d)
  {
    TransactionFields(t);
    EncodedSuccess(t);
    YieldPart(y);
    RepaidPart(r);
    DebtPart(d);
    if y.Some? {
      YieldFieldsHead(y.value);
    }
    if r.Some? {
      RepaidFieldsHead(r.value);
    }
    AddressPart(y, r, "position", "position",
      if y.Some? then Some(y.value.position) else None, if r.Some? then Some(r.value.position) else None);
    AddressPart(y, r, "claimer", "borrower",
      if y.Some? then Some(y.value.claimer) else None, if r.Some? then Some(r.value.borrower) else None);
    AddressPart(y, r, "loan_slot", "loan_slot",
      if y.Some? then Some(y.value.loanSlot) else None, if r.Some? then Some(r.value.loanSlot) else None);
    TimestampPart(Prop(EncodeTransaction(t), "timestamp"), t, y, r, d);
  }

  // The typed reading of the result, one group of fields at a time.

  lemma YieldPart(y: Option<LoanYieldClaimed>)
    ensures var v := YieldData(y);
      && ToStringOrZero(Prop(v, "yield_amount")) == (if y.Some? then NatToDecimal(y.value.yieldAmount) else "0")
      && ToStringOrZero(Prop(v, "fee_asset_a_amount")) == (if y.Some? then NatToDecimal(y.value.feeAssetA) else "0")
      && ToStringOrZero(Prop(v, "fee_asset_b_amount")) == (if y.Some? then NatToDecimal(y.value.feeAssetB) else "0")
      && ToStringOrZero(Prop(v, "total_reward_assets"))
         == (if y.Some? then NatToDecimal(y.value.totalRewardAssets) else "0")
  {
    if y.Some? {
      YieldFieldsHead(y.value);
      YieldFieldsTail(y.value);
      AmountRoundTrip(y.value.yieldAmount);
      AmountRoundTrip(y.value.feeAssetA);
      AmountRoundTrip(y.value.feeAssetB);
      AmountRoundTrip(y.value.totalRewardAssets);
    }
  }

  lemma RepaidPart(r: Option<LoanRepaid>)
    ensures var v := RepaidData(r);
      && ToStringOrZero(Prop(v, "amount")) == (if r.Some? then NatToDecimal(r.value.amount) else "0")
      && ToStringOrZero(Prop(v, "principal_portion"))
         == (if r.Some? then NatToDecimal(r.value.principalPortion) else "0")
      && ToStringOrZero(Prop(v, "interest_portion"))
         == (if r.Some? then NatToDecimal(r.value.interestPortion) else "0")
      && ToStringOrZero(Prop(v, "remaining_principal"))
         == (if r.Some? then NatToDecimal(r.value.remainingPrincipal) else "0")
      && Or(Prop(v, "loan_fully_repaid"), Bool(false)) == Bool(r.Some? && r.value.loanFullyRepaid)
  {
    if r.Some? {
      RepaidFieldsHead(r.value);
      RepaidFieldsTail(r.value);
      AmountRoundTrip(r.value.amount);
      AmountRoundTrip(r.value.principalPortion);
      AmountRoundTrip(r.value.interestPortion);
      AmountRoundTrip(r.value.remainingPrincipal);
    }
  }

  lemma DebtPart(d: Option<DebtIndexUpdated>)
    ensures var v := DebtData(d);
      && ToStringOrZero(Prop(v, "old_debt_idx")) == (if d.Some? then NatToDecimal(d.value.oldDebtIdx) else "0")
      && ToStringOrZero(Prop(v, "new_debt_idx")) == (if d.Some? then NatToDecimal(d.value.newDebtIdx) else "0")
      && ToStringOrZero(Prop(v, "apr")) == (if d.Some? then NatToDecimal(d.value.apr) else "0")
      && ToStringOrZero(Prop(v, "time_elapsed")) == (if d.Some? then NatToDecimal(d.value.timeElapsed) else "0")
  {
    if d.Some? {
      DebtFields(d.value);
      AmountRoundTrip(d.value.oldDebtIdx);
      AmountRoundTrip(d.value.newDebtIdx);
      AmountRoundTrip(d.value.apr);
      AmountRoundTrip(d.value.timeElapsed);
    }
  }

  /** An address read from the yield event, then the repayment, then "". */
  lemma AddressPart(y: Option<LoanYieldClaimed>, r: Option<LoanRepaid>, yieldKey: string, repayKey: string,
                    fromYield: Option<string>, fromRepay: Option<string>)
    requires y.Some? <==> fromYield.Some?
    requires r.Some? <==> fromRepay.Some?
    requires y.Some? ==> Prop(YieldData(y), yieldKey) == Str(fromYield.value)
    requires r.Some? ==> Prop(RepaidData(r), repayKey) == Str(fromRepay.value)
    ensures Or(Or(Prop(YieldData(y), yieldKey), Prop(RepaidData(r), repayKey)), Str(""))
         == Str(PreferredAddress(fromYield, fromRepay))
  {
  }

  lemma TimestampPart(fallback: Value, t: Transaction, y: Option<LoanYieldClaimed>, r: Option<LoanRepaid>,
                      d: Option<DebtIndexUpdated>)
    requires fallback == Str(t.timestamp)
    ensures Or(Or(Or(Prop(YieldData(y), "timestamp"), Prop(RepaidData(r), "timestamp")),
                  Prop(DebtData(d), "timestamp")), fallback)
         == Str(ExpectedTime(t, y, r, d))
  {
    if y.Some? {
      YieldFieldsTail(y.value);
    } else if r.Some? {
      RepaidFieldsTail(r.value);
    } else if d.Some? {
      DebtFields(d.value);
    }
  }

  /** A transaction with neither a yield claim nor a repayment is `null`,
      whatever its debt-index update says. */
  lemma DebtUpdateAloneIsNull(t: Transaction)
    requires FirstTagged(t.events, YIELD_TAG).None? && FirstTagged(t.events, REPAID_TAG).None?
    ensures NormalizeLoanSlotClaimYieldAndRepay(EncodeTransaction(t)).None?
  {
    EncodedKind(t);
    FindEventEncoded(t, YIELD_TAG);
    FindEventEncoded(t, REPAID_TAG);
    FindEventEncoded(t, DEBT_TAG);
  }

  /** Only user transactions are normalised. */
  lemma NonUserTransactionRejected(t: Transaction)
    requires t.kind != USER_TRANSACTION
    ensures NormalizeLoanSlotClaimYieldAndRepay(EncodeTransaction(t)).None?
  {
    EncodedKind(t);
  }

  /** A repayment alone: the yield amounts read "0", the claimer is the
      borrower, and the repayment's time wins over the debt update's. */
  lemma RepaymentAlone(transaction: Value, repayData: Value, debtData: Value)
    ensures var res := ResultOf(transaction, Undefined, repayData, debtData);
      && res.yieldAmount == "0" && res.feeAssetAAmount == "0"
      && res.feeAssetBAmount == "0" && res.totalRewardAssets == "0"
      && res.claimerAddress == Or(Prop(repayData, "borrower"), Str(""))
      && res.timestamp == Or(Or(Prop(repayData, "timestamp"), Prop(debtData, "timestamp")),
                             Prop(transaction, "timestamp"))
  {
  }

  /** Without the optional fields the flags and amounts take their defaults:
      `loanFullyRepaid` is `false`, not `undefined`. */
  lemma MissingFieldsDefault(transaction: Value)
    ensures var res := ResultOf(transaction, Obj([]), Obj([]), Undefined);
      && res.loanFullyRepaid == Bool(false) && res.repayAmount == "0"
      && res.positionAddress == Str("") && res.claimerAddress == Str("")
      && res.loanSlotAddress == Str("")
      && res.oldDebtIndex == "0" && res.apr == "0"
      && res.timestamp == Prop(transaction, "timestamp")
  {
  }
}

/** `normalizeDepositSlotClaimYield`
    (src/libs/normalizers/normalizeDepositSlotClaimYield.ts): the yield a
    lender claimed from a deposit slot, read from the first `YieldClaimed`
    event of a user transaction. */
module DepositSlotClaimYield {
  import opened Outcome
  import opened Decimal
  import opened JsValue
  import opened Events
  import opened TransactionTypeResolver

  const TAG: string := "YieldClaimed"

  datatype ClaimYieldResult = ClaimYieldResult(
    positionAddress: Value,
    transactionHash: Value,
    ownerAddress: Value,
    depositSlotAddress: Value,
    yieldAmount: string,
    amountFeeAssetA: string,
    amountFeeAssetB: string,
    rewardAssetsCount: string,
    lastUpdateTs: string,
    timestamp: Value,
    gasUsed: Value,
    success: Value)

  /** The record built from the transaction and the event data. Unlike the
      other normalisers, the time is always the transaction's. */
  function ResultOf(transaction: Value, data: Value): ClaimYieldResult {
    ClaimYieldResult(
      Prop(data, "position"),
      Prop(transaction, "hash"),
      Prop(data, "owner"),
      Prop(data, "deposit_slot"),
      ToStringOrZero(Prop(data, "yield_amount")),
      ToStringOrZero(Prop(data, "fee_asset_a_amount")),
      ToStringOrZero(Prop(data, "fee_asset_b_amount")),
      ToStringOrZero(Prop(data, "total_reward_assets")),
      ToStringOrZero(Prop(data, "last_update_ts")),
      Prop(transaction, "timestamp"),
      Prop(transaction, "gas_used"),
      Success(transaction))
  }

  /** The fields the record reads through `toString`. */
  const AMOUNT_KEYS: seq<string> := ["yield_amount", "fee_asset_a_amount", "fee_asset_b_amount", "total_reward_assets", "last_update_ts"]

  /** The body of the `try`: `null` for a falsy transaction, the resolver's
      error for any other kind of transaction, then the first matching
      event's data or `null`, and the TypeError of an amount whose
      `toString` throws. */
  function Decode(transaction: Value): Throws<Option<ClaimYieldResult>> {
    if !Truthy(transaction) then Ok(None)
    else
      var user :- ToUserTransaction(transaction);
      // `user.events` cannot throw: the resolver only lets objects through.
      var found :- FindEvent(Prop(user, "events"), TAG);
      var data := EventData(found);
      if !Truthy(data) then Ok(None)
      else if SomeToStrThrows(data, AMOUNT_KEYS) then Err(TypeError)
      else Ok(Some(ResultOf(user, data)))
  }

  /** The normaliser: every error is caught and reported as `null`. */
  function NormalizeDepositSlotClaimYield(transaction: Value): (r: Option<ClaimYieldResult>)
    ensures !Truthy(transaction) ==> r.None?
    ensures r.Some? ==> IsUserTransaction(transaction) == Ok(true) && Prop(transaction, "events").Arr?
    ensures r.Some? ==> r.value.timestamp == Prop(transaction, "timestamp")
  {
    match Decode(transaction)
    case Ok(r) => r
    case Err(_) => None
  }

  /** The result exists exactly when the transaction is a user transaction
      whose `events` array has a first `YieldClaimed` event with truthy data
      whose amounts all render, and is then built from that data. */
  lemma NormalizeFindsFirstEvent(transaction: Value)
    ensures NormalizeDepositSlotClaimYield(transaction).Some? <==>
      (IsUserTransaction(transaction) == Ok(true) && Prop(transaction, "events").Arr?
       && exists i :: FirstMatchAt(Prop(transaction, "events").items, TAG, i)
                   && Truthy(Prop(Prop(transaction, "events").items[i], "data"))
                   && !SomeToStrThrows(Prop(Prop(transaction, "events").items[i], "data"), AMOUNT_KEYS))
    ensures forall i ::
      IsUserTransaction(transaction) == Ok(true) && Prop(transaction, "events").Arr?
      && FirstMatchAt(Prop(transaction, "events").items, TAG, i) ==>
        NormalizeDepositSlotClaimYield(transaction)
          == (var data := Prop(Prop(transaction, "events").items[i], "data");
              if Truthy(data) && !SomeToStrThrows(data, AMOUNT_KEYS) then Some(ResultOf(transaction, data)) else None)
  {
    FirstMatchIsFound(Prop(transaction, "events"));
  }

  lemma FirstMatchIsFound(events: Value)
    ensures events.Arr? ==>
      forall i :: FirstMatchAt(events.items, TAG, i) ==> Find(events.items, TAG) == Ok(Some(events.items[i]))
  {
    if events.Arr? {
      forall i | FirstMatchAt(events.items, TAG, i)
        ensures Find(events.items, TAG) == Ok(Some(events.items[i]))
      {
        FindUnique(events.items, TAG, i);
      }
    }
  }

  /** A typed `YieldClaimed` event of a deposit slot: addresses and u64
      quantities, sent as decimal strings. */
  datatype YieldClaimed = YieldClaimed(
    position: string, owner: string, depositSlot: string,
    yieldAmount: nat, feeAssetA: nat, feeAssetB: nat, totalRewardAssets: nat, lastUpdateTs: nat)

  /** The event's fields as the chain names them, and their values. */
  const CLAIMED_KEYS: seq<string> := [
    "position", "owner", "deposit_slot", "yield_amount", "fee_asset_a_amount",
    "fee_asset_b_amount", "total_reward_assets", "last_update_ts"]

  function ClaimedValues(y: YieldClaimed): seq<Value> {
    [Str(y.position), Str(y.owner), Str(y.depositSlot), Str(NatToDecimal(y.yieldAmount)),
      Str(NatToDecimal(y.feeAssetA)), Str(NatToDecimal(y.feeAssetB)),
      Str(NatToDecimal(y.totalRewardAssets)), Str(NatToDecimal(y.lastUpdateTs))]
  }

  function EncodeClaimed(y: YieldClaimed): seq<(string, Value)> {
    Zip(CLAIMED_KEYS, ClaimedValues(y))
  }

  /** What the normaliser should report for a typed claim event. */
  function Expected(t: Transaction, y: YieldClaimed): ClaimYieldResult {
    ClaimYieldResult(
      Str(y.position), Str(t.hash), Str(y.owner), Str(y.depositSlot),
      NatToDecimal(y.yieldAmount), NatToDecimal(y.feeAssetA), NatToDecimal(y.feeAssetB),
      NatToDecimal(y.totalRewardAssets), NatToDecimal(y.lastUpdateTs),
      Str(t.timestamp), Str(t.gasUsed),
      Bool(t.success || t.vmStatus == EXECUTED_SUCCESSFULLY))
  }

  // Reading the encoded event back, field by field (in two halves, to keep
  // each proof small).

  lemma ClaimedLookup(y: YieldClaimed)
    ensures forall i :: 0 <= i < 8 ==> Lookup(EncodeClaimed(y), CLAIMED_KEYS[i]) == ClaimedValues(y)[i]
  {
    assert DistinctStrings(CLAIMED_KEYS);
    LookupZip(CLAIMED_KEYS, ClaimedValues(y));
  }

  lemma ClaimedFieldsHead(y: YieldClaimed)
    ensures var v := Obj(EncodeClaimed(y));
      && Prop(v, "position") == Str(y.position)
      && Prop(v, "owner") == Str(y.owner)
      && Prop(v, "deposit_slot") == Str(y.depositSlot)
      && Prop(v, "yield_amount") == Str(NatToDecimal(y.yieldAmount))
  {
    ClaimedLookup(y);
    assert CLAIMED_KEYS[0] == "position";
    assert CLAIMED_KEYS[1] == "owner";
    assert CLAIMED_KEYS[2] == "deposit_slot";
    assert CLAIMED_KEYS[3] == "yield_amount";
  }

  lemma ClaimedFieldsTail(y: YieldClaimed)
    ensures var v := Obj(EncodeClaimed(y));
      && Prop(v, "fee_asset_a_amount") == Str(NatToDecimal(y.feeAssetA))
      && Prop(v, "fee_asset_b_amount") == Str(NatToDecimal(y.feeAssetB))
      && Prop(v, "total_reward_assets") == Str(NatToDecimal(y.totalRewardAssets))
      && Prop(v, "last_update_ts") == Str(NatToDecimal(y.lastUpdateTs))
  {
    ClaimedLookup(y);
    assert CLAIMED_KEYS[4] == "fee_asset_a_amount";
    assert CLAIMED_KEYS[5] == "fee_asset_b_amount";
    assert CLAIMED_KEYS[6] == "total_reward_assets";
    assert CLAIMED_KEYS[7] == "last_update_ts";
  }

  /** Round trip: a user transaction whose first `YieldClaimed` event carries
      a typed claim normalises to exactly that claim, stamped with the
      transaction's time. */
  lemma NormalizeEncoded(t: Transaction, y: YieldClaimed, eventType: string)
    requires t.kind == USER_TRANSACTION
    requires FirstTagged(t.events, TAG) == Some(Event(eventType, Obj(EncodeClaimed(y))))
    ensures NormalizeDepositSlotClaimYield(EncodeTransaction(t)) == Some(Expected(t, y))
  {
    var tx := EncodeTransaction(t);
    EncodedKind(t);
    FindEventEncoded(t, TAG);
    ClaimedQuiet(y);
    DecodeFound(tx, EncodeEvent(Event(eventType, Obj(EncodeClaimed(y)))));
    ResultOfEncoded(t, y);
  }

  /** When the transaction passes the resolver and the search finds an event
      with truthy data, the result is built from that data, unless an
      amount's `toString` throws. */
  lemma DecodeFound(transaction: Value, event: Value)
    requires IsUserTransaction(transaction) == Ok(true)
    requires Prop(transaction, "events").Arr?
    requires FindEvent(Prop(transaction, "events"), TAG) == Ok(Some(event))
    requires Truthy(Prop(event, "data"))
    ensures NormalizeDepositSlotClaimYield(transaction)
      == if SomeToStrThrows(Prop(event, "data"), AMOUNT_KEYS) then None
         else Some(ResultOf(transaction, Prop(event, "data")))
  {
  }

  /** The encoded event's values are strings, which all render. */
  lemma ClaimedQuiet(y: YieldClaimed)
    ensures !SomeToStrThrows(Obj(EncodeClaimed(y)), AMOUNT_KEYS)
  {
    var values := ClaimedValues(y);
    assert forall j :: 0 <= j < |values| ==> values[j].Str?;
    QuietFields(EncodeClaimed(y), AMOUNT_KEYS);
  }

  lemma ResultOfEncoded(t: Transaction, y: YieldClaimed)
    ensures ResultOf(EncodeTransaction(t), Obj(EncodeClaimed(y))) == Expected(t, y)
  {
    TransactionFields(t);
    EncodedSuccess(t);
    ClaimedFieldsHead(y);
    ClaimedFieldsTail(y);
    ResultOfFields(EncodeTransaction(t), Obj(EncodeClaimed(y)), t, y);
  }

  /** The record built from any data carrying the typed claim's fields. */
  lemma ResultOfFields(tx: Value, v: Value, t: Transaction, y: YieldClaimed)
    requires Prop(tx, "hash") == Str(t.hash) && Prop(tx, "gas_used") == Str(t.gasUsed)
    requires Prop(tx, "timestamp") == Str(t.timestamp)
    requires Success(tx) == Bool(t.success || t.vmStatus == EXECUTED_SUCCESSFULLY)
    requires Prop(v, "position") == Str(y.position) && Prop(v, "owner") == Str(y.owner)
    requires Prop(v, "deposit_slot") == Str(y.depositSlot)
    requires Prop(v, "yield_amount") == Str(NatToDecimal(y.yieldAmount))
    requires Prop(v, "fee_asset_a_amount") == Str(NatToDecimal(y.feeAssetA))
    requires Prop(v, "fee_asset_b_amount") == Str(NatToDecimal(y.feeAssetB))
    requires Prop(v, "total_reward_assets") == Str(NatToDecimal(y.totalRewardAssets))
    requires Prop(v, "last_update_ts") == Str(NatToDecimal(y.lastUpdateTs))
    ensures ResultOf(tx, v) == Expected(t, y)
  {
    var r := ResultOf(tx, v);
    assert r.yieldAmount == NatToDecimal(y.yieldAmount) by { AmountRoundTrip(y.yieldAmount); }
    assert r.amountFeeAssetA == NatToDecimal(y.feeAssetA) by { AmountRoundTrip(y.feeAssetA); }
    assert r.amountFeeAssetB == NatToDecimal(y.feeAssetB) by { AmountRoundTrip(y.feeAssetB); }
    assert r.rewardAssetsCount == NatToDecimal(y.totalRewardAssets) by { AmountRoundTrip(y.totalRewardAssets); }
    assert r.lastUpdateTs == NatToDecimal(y.lastUpdateTs) by { AmountRoundTrip(y.lastUpdateTs); }
  }

  /** Only user transactions are normalised. */
  lemma NonUserTransactionRejected(t: Transaction)
    requires t.kind != USER_TRANSACTION
    ensures NormalizeDepositSlotClaimYield(EncodeTransaction(t)).None?
  {
    EncodedKind(t);
  }

  /** Without a `YieldClaimed` event there is no result. */
  lemma NormalizeWithoutEvent(t: Transaction)
    requires FirstTagged(t.events, TAG).None?
    ensures NormalizeDepositSlotClaimYield(EncodeTransaction(t)).None?
  {
    TransactionFields(t);
    FindEventEncoded(t, TAG);
  }

  /** Event data without any of the fields: every amount reads "0"; a
      `timestamp` in the event data is ignored. */
  lemma MissingFieldsDefault(transaction: Value, time: Value)
    ensures var r := ResultOf(transaction, Obj([]));
      && r.yieldAmount == "0" && r.amountFeeAssetA == "0" && r.amountFeeAssetB == "0"
      && r.rewardAssetsCount == "0" && r.lastUpdateTs == "0"
      && r.positionAddress == Undefined && r.ownerAddress == Undefined
    ensures ResultOf(transaction, Obj([("timestamp", time)])).timestamp == Prop(transaction, "timestamp")
  {
  }
}

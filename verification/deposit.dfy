/** `normalizeDepositLiquiditySingle`
    (src/libs/normalizers/normalizeDepositLiquiditySingle.ts): the result of a
    single-sided deposit, read from the first `LiquidityDeposited` event of a
    user transaction. */
module DepositLiquidity {
  import opened Outcome
  import opened Decimal
  import opened JsValue
  import opened Events
  import opened TransactionTypeResolver

  const TAG: string := "LiquidityDeposited"

  datatype DepositResult = DepositResult(
    positionAddress: Value,
    lenderAddress: Value,
    depositSlotAddress: Value,
    liquidityAmount: string,
    shares: string,
    totalLiquidity: string,
    totalShares: string,
    utilization: string,
    transactionHash: Value,
    timestamp: Value,
    gasUsed: Value,
    success: Value)

  /** The record built from the transaction and the event data. */
  function ResultOf(transaction: Value, data: Value): DepositResult {
    DepositResult(
      Prop(data, "position"),
      Prop(data, "lender"),
      Prop(data, "deposit_slot"),
      ToStringOrZero(Prop(data, "amount")),
      ToStringOrZero(Prop(data, "shares")),
      ToStringOrZero(Prop(data, "total_liquidity")),
      ToStringOrZero(Prop(data, "total_shares")),
      ToStringOrZero(Prop(data, "utilization")),
      Prop(transaction, "hash"),
      Or(Prop(data, "timestamp"), Prop(transaction, "timestamp")),
      Prop(transaction, "gas_used"),
      Success(transaction))
  }

  /** The fields the record reads through `toString`. */
  const AMOUNT_KEYS: seq<string> := ["amount", "shares", "total_liquidity", "total_shares", "utilization"]

  /** The body of the `try`: `null` for a falsy transaction, the resolver's
      error for any other kind of transaction, then the first matching
      event's data or `null`, and the TypeError of an amount whose
      `toString` throws. */
  function Decode(transaction: Value): Throws<Option<DepositResult>> {
    if !Truthy(transaction) then Ok(None)
    else
      var user :- ToUserTransaction(transaction);
      // `user.events` cannot throw: the resolver only lets objects through.
      var found :- FindEvent(Prop(user, "events"), TAG);
      var data := EventData(found);
      if !Truthy(data) then Ok(None)
      else if SomeToStrThrows(data, AMOUNT_KEYS) then Err(TypeError)
      else Ok(Some(ResultOf(user, data)))
  }

  /** The normaliser: every error is caught and reported as `null`. */
  function NormalizeDepositLiquiditySingle(transaction: Value): (r: Option<DepositResult>)
    ensures !Truthy(transaction) ==> r.None?
    ensures r.Some? ==> IsUserTransaction(transaction) == Ok(true) && Prop(transaction, "events").Arr?
  {
    match Decode(transaction)
    case Ok(r) => r
    case Err(_) => None
  }

  /** The result exists exactly when the transaction is a user transaction
      whose `events` array has a first `LiquidityDeposited` event with truthy
      data whose amounts all render, and is then built from that data. */
  lemma NormalizeFindsFirstEvent(transaction: Value)
    ensures NormalizeDepositLiquiditySingle(transaction).Some? <==>
      (IsUserTransaction(transaction) == Ok(true) && Prop(transaction, "events").Arr?
       && exists i :: FirstMatchAt(Prop(transaction, "events").items, TAG, i)
                   && Truthy(Prop(Prop(transaction, "events").items[i], "data"))
                   && !SomeToStrThrows(Prop(Prop(transaction, "events").items[i], "data"), AMOUNT_KEYS))
    ensures forall i ::
      IsUserTransaction(transaction) == Ok(true) && Prop(transaction, "events").Arr?
      && FirstMatchAt(Prop(transaction, "events").items, TAG, i) ==>
        NormalizeDepositLiquiditySingle(transaction)
          == (var data := Prop(Prop(transaction, "events").items[i], "data");
              if Truthy(data) && !SomeToStrThrows(data, AMOUNT_KEYS) then Some(ResultOf(transaction, data)) else None)
  {
    FirstMatchIsFound(Prop(transaction, "events"));
  }

  lemma FirstMatchIsFound(events: Value)
    ensures events.Arr? ==>
      forall i :: FirstMatchAt(events.items, TAG, i) ==> Find(events.items, TAG) == Ok(Some(events.items[i]))
  {
    if events.Arr? {
      forall i | FirstMatchAt(events.items, TAG, i)
        ensures Find(events.items, TAG) == Ok(Some(events.items[i]))
      {
        FindUnique(events.items, TAG, i);
      }
    }
  }

  /** A typed `LiquidityDeposited` event: addresses, u64 quantities (sent as
      decimal strings) and the event time. */
  datatype LiquidityDeposited = LiquidityDeposited(
    position: string, lender: string, depositSlot: string,
    amount: nat, shares: nat, totalLiquidity: nat, totalShares: nat, utilization: nat,
    timestamp: nat)

  /** The event's fields as the chain names them, and their values. */
  const DEPOSITED_KEYS: seq<string> := [
    "position", "lender", "deposit_slot", "amount", "shares", "total_liquidity",
    "total_shares", "utilization", "timestamp"]

  function DepositedValues(d: LiquidityDeposited): seq<Value> {
    [Str(d.position), Str(d.lender), Str(d.depositSlot), Str(NatToDecimal(d.amount)),
      Str(NatToDecimal(d.shares)), Str(NatToDecimal(d.totalLiquidity)),
      Str(NatToDecimal(d.totalShares)), Str(NatToDecimal(d.utilization)),
      Str(NatToDecimal(d.timestamp))]
  }

  function EncodeDeposited(d: LiquidityDeposited): seq<(string, Value)> {
    Zip(DEPOSITED_KEYS, DepositedValues(d))
  }

  /** What the normaliser should report for a typed deposit event. */
  function Expected(t: Transaction, d: LiquidityDeposited): DepositResult {
    DepositResult(
      Str(d.position), Str(d.lender), Str(d.depositSlot),
      NatToDecimal(d.amount), NatToDecimal(d.shares), NatToDecimal(d.totalLiquidity),
      NatToDecimal(d.totalShares), NatToDecimal(d.utilization),
      Str(t.hash), Str(NatToDecimal(d.timestamp)), Str(t.gasUsed),
      Bool(t.success || t.vmStatus == EXECUTED_SUCCESSFULLY))
  }

  // Reading the encoded event back, field by field (in two halves, to keep
  // each proof small).

  lemma DepositedLookup(d: LiquidityDeposited)
    ensures forall i :: 0 <= i < 9 ==> Lookup(EncodeDeposited(d), DEPOSITED_KEYS[i]) == DepositedValues(d)[i]
  {
    assert DistinctStrings(DEPOSITED_KEYS);
    LookupZip(DEPOSITED_KEYS, DepositedValues(d));
  }

  lemma DepositedFieldsHead(d: LiquidityDeposited)
    ensures var v := Obj(EncodeDeposited(d));
      && Prop(v, "position") == Str(d.position)
      && Prop(v, "lender") == Str(d.lender)
      && Prop(v, "deposit_slot") == Str(d.depositSlot)
      && Prop(v, "amount") == Str(NatToDecimal(d.amount))
      && Prop(v, "shares") == Str(NatToDecimal(d.shares))
  {
    DepositedLookup(d);
    assert DEPOSITED_KEYS[0] == "position";
    assert DEPOSITED_KEYS[1] == "lender";
    assert DEPOSITED_KEYS[2] == "deposit_slot";
    assert DEPOSITED_KEYS[3] == "amount";
    assert DEPOSITED_KEYS[4] == "shares";
  }

  lemma DepositedFieldsTail(d: LiquidityDeposited)
    ensures var v := Obj(EncodeDeposited(d));
      && Prop(v, "total_liquidity") == Str(NatToDecimal(d.totalLiquidity))
      && Prop(v, "total_shares") == Str(NatToDecimal(d.totalShares))
      && Prop(v, "utilization") == Str(NatToDecimal(d.utilization))
      && Prop(v, "timestamp") == Str(NatToDecimal(d.timestamp))
  {
    DepositedLookup(d);
    assert DEPOSITED_KEYS[5] == "total_liquidity";
    assert DEPOSITED_KEYS[6] == "total_shares";
    assert DEPOSITED_KEYS[7] == "utilization";
    assert DEPOSITED_KEYS[8] == "timestamp";
  }

  /** Round trip: a user transaction whose first `LiquidityDeposited` event
      carries a typed deposit normalises to exactly that deposit, amounts
      rendered as decimal strings. */
  lemma NormalizeEncoded(t: Transaction, d: LiquidityDeposited, eventType: string)
    requires t.kind == USER_TRANSACTION
    requires FirstTagged(t.events, TAG) == Some(Event(eventType, Obj(EncodeDeposited(d))))
    ensures NormalizeDepositLiquiditySingle(EncodeTransaction(t)) == Some(Expected(t, d))
  {
    var tx := EncodeTransaction(t);
    EncodedKind(t);
    FindEventEncoded(t, TAG);
    DepositedQuiet(d);
    DecodeFound(tx, EncodeEvent(Event(eventType, Obj(EncodeDeposited(d)))));
    ResultOfEncoded(t, d);
  }

  /** When the transaction passes the resolver and the search finds an event
      with truthy data, the result is built from that data, unless an
      amount's `toString` throws. */
  lemma DecodeFound(transaction: Value, event: Value)
    requires IsUserTransaction(transaction) == Ok(true)
    requires Prop(transaction, "events").Arr?
    requires FindEvent(Prop(transaction, "events"), TAG) == Ok(Some(event))
    requires Truthy(Prop(event, "data"))
    ensures NormalizeDepositLiquiditySingle(transaction)
      == if SomeToStrThrows(Prop(event, "data"), AMOUNT_KEYS) then None
         else Some(ResultOf(transaction, Prop(event, "data")))
  {
  }

  /** The encoded event's values are strings, which all render. */
  lemma DepositedQuiet(d: LiquidityDeposited)
    ensures !SomeToStrThrows(Obj(EncodeDeposited(d)), AMOUNT_KEYS)
  {
    var values := DepositedValues(d);
    assert forall j :: 0 <= j < |values| ==> values[j].Str?;
    QuietFields(EncodeDeposited(d), AMOUNT_KEYS);
  }

  lemma ResultOfEncoded(t: Transaction, d: LiquidityDeposited)
    ensures ResultOf(EncodeTransaction(t), Obj(EncodeDeposited(d))) == Expected(t, d)
  {
    TransactionFields(t);
    EncodedSuccess(t);
    DepositedFieldsHead(d);
    DepositedFieldsTail(d);
    ResultOfFields(EncodeTransaction(t), Obj(EncodeDeposited(d)), t, d);
  }

  /** The record built from any data carrying the typed deposit's fields. */
  lemma ResultOfFields(tx: Value, v: Value, t: Transaction, d: LiquidityDeposited)
    requires Prop(tx, "hash") == Str(t.hash) && Prop(tx, "gas_used") == Str(t.gasUsed)
    requires Success(tx) == Bool(t.success || t.vmStatus == EXECUTED_SUCCESSFULLY)
    requires Prop(v, "position") == Str(d.position) && Prop(v, "lender") == Str(d.lender)
    requires Prop(v, "deposit_slot") == Str(d.depositSlot)
    requires Prop(v, "amount") == Str(NatToDecimal(d.amount))
    requires Prop(v, "shares") == Str(NatToDecimal(d.shares))
    requires Prop(v, "total_liquidity") == Str(NatToDecimal(d.totalLiquidity))
    requires Prop(v, "total_shares") == Str(NatToDecimal(d.totalShares))
    requires Prop(v, "utilization") == Str(NatToDecimal(d.utilization))
    requires Prop(v, "timestamp") == Str(NatToDecimal(d.timestamp))
    ensures ResultOf(tx, v) == Expected(t, d)
  {
    var r := ResultOf(tx, v);
    assert r.liquidityAmount == NatToDecimal(d.amount) by { AmountRoundTrip(d.amount); }
    assert r.shares == NatToDecimal(d.shares) by { AmountRoundTrip(d.shares); }
    assert r.totalLiquidity == NatToDecimal(d.totalLiquidity) by { AmountRoundTrip(d.totalLiquidity); }
    assert r.totalShares == NatToDecimal(d.totalShares) by { AmountRoundTrip(d.totalShares); }
    assert r.utilization == NatToDecimal(d.utilization) by { AmountRoundTrip(d.utilization); }
    assert r.timestamp == Str(NatToDecimal(d.timestamp));
  }

  /** Only user transactions are normalised: any other kind is `null`, even
      with a matching event. */
  lemma NonUserTransactionRejected(t: Transaction)
    requires t.kind != USER_TRANSACTION
    ensures NormalizeDepositLiquiditySingle(EncodeTransaction(t)).None?
  {
    EncodedKind(t);
  }

  /** Without a `LiquidityDeposited` event there is no result. */
  lemma NormalizeWithoutEvent(t: Transaction)
    requires FirstTagged(t.events, TAG).None?
    ensures NormalizeDepositLiquiditySingle(EncodeTransaction(t)).None?
  {
    TransactionFields(t);
    FindEventEncoded(t, TAG);
  }

  /** Event data without any of the fields: amounts read "0" and the time
      falls back to the transaction's. */
  lemma MissingFieldsDefault(transaction: Value)
    ensures var r := ResultOf(transaction, Obj([]));
      && r.liquidityAmount == "0" && r.shares == "0" && r.totalLiquidity == "0"
      && r.totalShares == "0" && r.utilization == "0"
      && r.timestamp == Prop(transaction, "timestamp")
      && r.positionAddress == Undefined && r.lenderAddress == Undefined
  {
  }
}

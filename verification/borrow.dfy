/** `normalizeLiquidityBorrow` (src/libs/normalizers/normalizeBorrowLiquidity.ts):
    the result of a borrow, read from the transaction's first
    `LiquidityBorrowed` event. */
module BorrowLiquidity {
  import opened Outcome
  import opened Decimal
  import opened JsValue
  import opened Events

  const TAG: string := "LiquidityBorrowed"

  datatype BorrowResult = BorrowResult(
    positionAddress: Value,
    borrowerAddress: Value,
    loanSlotAddress: Value,
    borrowAmount: string,
    reserveAmount: string,
    durationIndex: Value,
    debtIndexAtBorrow: string,
    newUtilization: string,
    totalBorrowed: string,
    availableBorrow: string,
    transactionHash: Value,
    timestamp: Value,
    gasUsed: Value,
    success: Value)

  /** The record built from the transaction and the event data. */
  function ResultOf(transaction: Value, data: Value): BorrowResult {
    BorrowResult(
      Prop(data, "position"),
      Prop(data, "borrower"),
      Prop(data, "loan_slot"),
      ToStringOrZero(Prop(data, "amount")),
      ToStringOrZero(Prop(data, "reserve")),
      Or(Prop(data, "duration_idx"), Int(0)),
      ToStringOrZero(Prop(data, "debt_idx_at_borrow")),
      ToStringOrZero(Prop(data, "new_utilization")),
      ToStringOrZero(Prop(data, "total_borrowed")),
      ToStringOrZero(Prop(data, "available_borrow")),
      Prop(transaction, "hash"),
      Or(Prop(data, "timestamp"), Prop(transaction, "timestamp")),
      Prop(transaction, "gas_used"),
      Success(transaction))
  }

  /** The fields the record reads through `toString`. */
  const AMOUNT_KEYS: seq<string> := [
    "amount", "reserve", "debt_idx_at_borrow", "new_utilization", "total_borrowed", "available_borrow"]

  /** The body of the `try`: `null` without events or without a matching
      event carrying data, whatever the event search throws, and the
      TypeError of an amount whose `toString` throws. There is no
      user-transaction check. */
  function Decode(transaction: Value): Throws<Option<BorrowResult>> {
    var events :- Access(transaction, "events");
    if !Truthy(events) then Ok(None)
    else
      var found :- FindEvent(events, TAG);
      var data := EventData(found);
      if !Truthy(data) then Ok(None)
      else if SomeToStrThrows(data, AMOUNT_KEYS) then Err(TypeError)
      else Ok(Some(ResultOf(transaction, data)))
  }

  /** The normaliser: a caught error is `null`, and so is a missing,
      falsy or non-array `events`. */
  function NormalizeLiquidityBorrow(transaction: Value): (r: Option<BorrowResult>)
    ensures Nullish(transaction) || !Truthy(Prop(transaction, "events")) ==> r.None?
    ensures r.Some? ==> Prop(transaction, "events").Arr?
  {
    match Decode(transaction)
    case Ok(r) => r
    case Err(_) => None
  }

  /** The result exists exactly when `events` is an array whose first
      `LiquidityBorrowed` event has truthy data whose amounts all render,
      and is then built from that event's data. */
  lemma NormalizeFindsFirstEvent(transaction: Value)
    ensures NormalizeLiquidityBorrow(transaction).Some? <==> (Prop(transaction, "events").Arr?
      && exists i :: FirstMatchAt(Prop(transaction, "events").items, TAG, i)
                  && Truthy(Prop(Prop(transaction, "events").items[i], "data"))
                  && !SomeToStrThrows(Prop(Prop(transaction, "events").items[i], "data"), AMOUNT_KEYS))
    ensures forall i :: Prop(transaction, "events").Arr? && FirstMatchAt(Prop(transaction, "events").items, TAG, i) ==>
      NormalizeLiquidityBorrow(transaction)
        == (var data := Prop(Prop(transaction, "events").items[i], "data");
            if Truthy(data) && !SomeToStrThrows(data, AMOUNT_KEYS) then Some(ResultOf(transaction, data)) else None)
  {
    FirstMatchIsFound(Prop(transaction, "events"));
  }

  lemma FirstMatchIsFound(events: Value)
    ensures events.Arr? ==>
      forall i :: FirstMatchAt(events.items, TAG, i) ==> Find(events.items, TAG) == Ok(Some(events.items[i]))
  {
    if events.Arr? {
      forall i | FirstMatchAt(events.items, TAG, i)
        ensures Find(events.items, TAG) == Ok(Some(events.items[i]))
      {
        FindUnique(events.items, TAG, i);
      }
    }
  }

  /** A typed `LiquidityBorrowed` event: addresses, u64 quantities (sent as
      decimal strings), the duration index (a small number) and the event
      time. */
  datatype LiquidityBorrowed = LiquidityBorrowed(
    position: string, borrower: string, loanSlot: string,
    amount: nat, reserve: nat, durationIdx: nat, debtIdxAtBorrow: nat,
    newUtilization: nat, totalBorrowed: nat, availableBorrow: nat, timestamp: nat)

  /** The event's fields as the chain names them, and their values. */
  const BORROWED_KEYS: seq<string> := [
    "position", "borrower", "loan_slot", "amount", "reserve", "duration_idx",
    "debt_idx_at_borrow", "new_utilization", "total_borrowed", "available_borrow", "timestamp"]

  function BorrowedValues(b: LiquidityBorrowed): seq<Value> {
    [Str(b.position), Str(b.borrower), Str(b.loanSlot), Str(NatToDecimal(b.amount)), Str(NatToDecimal(b.reserve)),
      Int(b.durationIdx), Str(NatToDecimal(b.debtIdxAtBorrow)), Str(NatToDecimal(b.newUtilization)),
      Str(NatToDecimal(b.totalBorrowed)), Str(NatToDecimal(b.availableBorrow)), Str(NatToDecimal(b.timestamp))]
  }

  function EncodeBorrowed(b: LiquidityBorrowed): seq<(string, Value)> {
    Zip(BORROWED_KEYS, BorrowedValues(b))
  }

  /** What the normaliser should report for a typed borrow event. */
  function Expected(t: Transaction, b: LiquidityBorrowed): BorrowResult {
    BorrowResult(
      Str(b.position), Str(b.borrower), Str(b.loanSlot),
      NatToDecimal(b.amount), NatToDecimal(b.reserve), Int(b.durationIdx),
      NatToDecimal(b.debtIdxAtBorrow), NatToDecimal(b.newUtilization),
      NatToDecimal(b.totalBorrowed), NatToDecimal(b.availableBorrow),
      Str(t.hash), Str(NatToDecimal(b.timestamp)), Str(t.gasUsed),
      Bool(t.success || t.vmStatus == EXECUTED_SUCCESSFULLY))
  }

  // Reading the encoded event back, field by field (in two halves, to keep
  // each proof small).

  lemma BorrowedLookup(b: LiquidityBorrowed)
    ensures forall i :: 0 <= i < 11 ==> Lookup(EncodeBorrowed(b), BORROWED_KEYS[i]) == BorrowedValues(b)[i]
  {
    assert DistinctStrings(BORROWED_KEYS);
    LookupZip(BORROWED_KEYS, BorrowedValues(b));
  }

  lemma BorrowedFieldsHead(b: LiquidityBorrowed)
    ensures var d := Obj(EncodeBorrowed(b));
      && Prop(d, "position") == Str(b.position)
      && Prop(d, "borrower") == Str(b.borrower)
      && Prop(d, "loan_slot") == Str(b.loanSlot)
      && Prop(d, "amount") == Str(NatToDecimal(b.amount))
      && Prop(d, "reserve") == Str(NatToDecimal(b.reserve))
      && Prop(d, "duration_idx") == Int(b.durationIdx)
  {
    BorrowedLookup(b);
    assert BORROWED_KEYS[0] == "position";
    assert BORROWED_KEYS[1] == "borrower";
    assert BORROWED_KEYS[2] == "loan_slot";
    assert BORROWED_KEYS[3] == "amount";
    assert BORROWED_KEYS[4] == "reserve";
    assert BORROWED_KEYS[5] == "duration_idx";
  }

  lemma BorrowedFieldsTail(b: LiquidityBorrowed)
    ensures var d := Obj(EncodeBorrowed(b));
      && Prop(d, "debt_idx_at_borrow") == Str(NatToDecimal(b.debtIdxAtBorrow))
      && Prop(d, "new_utilization") == Str(NatToDecimal(b.newUtilization))
      && Prop(d, "total_borrowed") == Str(NatToDecimal(b.totalBorrowed))
      && Prop(d, "available_borrow") == Str(NatToDecimal(b.availableBorrow))
      && Prop(d, "timestamp") == Str(NatToDecimal(b.timestamp))
  {
    BorrowedLookup(b);
    assert BORROWED_KEYS[6] == "debt_idx_at_borrow";
    assert BORROWED_KEYS[7] == "new_utilization";
    assert BORROWED_KEYS[8] == "total_borrowed";
    assert BORROWED_KEYS[9] == "available_borrow";
    assert BORROWED_KEYS[10] == "timestamp";
  }

  /** Round trip: a transaction whose first `LiquidityBorrowed` event carries
      a typed borrow normalises to exactly that borrow, amounts rendered as
      decimal strings. The transaction's kind plays no part. */
  lemma NormalizeEncoded(t: Transaction, b: LiquidityBorrowed, eventType: string)
    requires FirstTagged(t.events, TAG) == Some(Event(eventType, Obj(EncodeBorrowed(b))))
    ensures NormalizeLiquidityBorrow(EncodeTransaction(t)) == Some(Expected(t, b))
  {
    var tx := EncodeTransaction(t);
    TransactionFields(t);
    FindEventEncoded(t, TAG);
    BorrowedQuiet(b);
    DecodeFound(tx, EncodeEvent(Event(eventType, Obj(EncodeBorrowed(b)))));
    ResultOfEncoded(t, b);
  }

  /** When the search finds an event with truthy data, the result is built
      from that data, unless an amount's `toString` throws. */
  lemma DecodeFound(transaction: Value, event: Value)
    requires Prop(transaction, "events").Arr?
    requires FindEvent(Prop(transaction, "events"), TAG) == Ok(Some(event))
    requires Truthy(Prop(event, "data"))
    ensures NormalizeLiquidityBorrow(transaction)
      == if SomeToStrThrows(Prop(event, "data"), AMOUNT_KEYS) then None
         else Some(ResultOf(transaction, Prop(event, "data")))
  {
  }

  /** The encoded event's values are strings and numbers, which all render. */
  lemma BorrowedQuiet(b: LiquidityBorrowed)
    ensures !SomeToStrThrows(Obj(EncodeBorrowed(b)), AMOUNT_KEYS)
  {
    var values := BorrowedValues(b);
    assert forall j :: 0 <= j < |values| ==> values[j].Str? || values[j].Int?;
    QuietFields(EncodeBorrowed(b), AMOUNT_KEYS);
  }

  lemma ResultOfEncoded(t: Transaction, b: LiquidityBorrowed)
    ensures ResultOf(EncodeTransaction(t), Obj(EncodeBorrowed(b))) == Expected(t, b)
  {
    TransactionFields(t);
    EncodedSuccess(t);
    BorrowedFieldsHead(b);
    BorrowedFieldsTail(b);
    ResultOfFields(EncodeTransaction(t), Obj(EncodeBorrowed(b)), t, b);
  }

  /** The record built from any data carrying the typed borrow's fields. */
  lemma ResultOfFields(tx: Value, d: Value, t: Transaction, b: LiquidityBorrowed)
    requires Prop(tx, "hash") == Str(t.hash) && Prop(tx, "gas_used") == Str(t.gasUsed)
    requires Success(tx) == Bool(t.success || t.vmStatus == EXECUTED_SUCCESSFULLY)
    requires Prop(d, "position") == Str(b.position) && Prop(d, "borrower") == Str(b.borrower)
    requires Prop(d, "loan_slot") == Str(b.loanSlot) && Prop(d, "amount") == Str(NatToDecimal(b.amount))
    requires Prop(d, "reserve") == Str(NatToDecimal(b.reserve)) && Prop(d, "duration_idx") == Int(b.durationIdx)
    requires Prop(d, "debt_idx_at_borrow") == Str(NatToDecimal(b.debtIdxAtBorrow))
    requires Prop(d, "new_utilization") == Str(NatToDecimal(b.newUtilization))
    requires Prop(d, "total_borrowed") == Str(NatToDecimal(b.totalBorrowed))
    requires Prop(d, "available_borrow") == Str(NatToDecimal(b.availableBorrow))
    requires Prop(d, "timestamp") == Str(NatToDecimal(b.timestamp))
    ensures ResultOf(tx, d) == Expected(t, b)
  {
    var r := ResultOf(tx, d);
    assert r.borrowAmount == NatToDecimal(b.amount) by { AmountRoundTrip(b.amount); }
    assert r.reserveAmount == NatToDecimal(b.reserve) by { AmountRoundTrip(b.reserve); }
    assert r.debtIndexAtBorrow == NatToDecimal(b.debtIdxAtBorrow) by { AmountRoundTrip(b.debtIdxAtBorrow); }
    assert r.newUtilization == NatToDecimal(b.newUtilization) by { AmountRoundTrip(b.newUtilization); }
    assert r.totalBorrowed == NatToDecimal(b.totalBorrowed) by { AmountRoundTrip(b.totalBorrowed); }
    assert r.availableBorrow == NatToDecimal(b.availableBorrow) by { AmountRoundTrip(b.availableBorrow); }
    assert r.timestamp == Str(NatToDecimal(b.timestamp));
  }

  /** Without a `LiquidityBorrowed` event there is no result. */
  lemma NormalizeWithoutEvent(t: Transaction)
    requires FirstTagged(t.events, TAG).None?
    ensures NormalizeLiquidityBorrow(EncodeTransaction(t)).None?
  {
    TransactionFields(t);
    FindEventEncoded(t, TAG);
  }

  /** Event data without any of the fields: amounts read "0", the duration
      index 0, and the time falls back to the transaction's. */
  lemma MissingFieldsDefault(transaction: Value)
    ensures var r := ResultOf(transaction, Obj([]));
      && r.borrowAmount == "0" && r.reserveAmount == "0" && r.debtIndexAtBorrow == "0"
      && r.newUtilization == "0" && r.totalBorrowed == "0" && r.availableBorrow == "0"
      && r.durationIndex == Int(0) && r.timestamp == Prop(transaction, "timestamp")
      && r.positionAddress == Undefined
  {
  }
}

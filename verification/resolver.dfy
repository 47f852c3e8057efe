/** `TransactionTypeResolver` (src/libs/normalizers/transactionTypeResolver.ts):
    the gate that lets only user transactions through. */
module TransactionTypeResolver {
  import opened Outcome
  import opened JsValue
  import Events

  /** The SDK's `TransactionResponseType.User`. */
  const USER_TRANSACTION: string := "user_transaction"

  const NOT_A_USER_TRANSACTION: string := "Transaction is not a UserTransaction"

  /** `transaction.type === User`; reading `type` of a nullish value throws. */
  function IsUserTransaction(transaction: Value): (r: Throws<bool>)
    ensures r.Err? <==> Nullish(transaction)
    ensures r.Ok? ==> (r.value <==> transaction.Obj? && Lookup(transaction.entries, "type") == Str(USER_TRANSACTION))
  {
    var kind :- Access(transaction, "type");
    Ok(kind == Str(USER_TRANSACTION))
  }

  /** Returns the transaction itself when it is a user transaction and throws
      otherwise. */
  function ToUserTransaction(transaction: Value): (r: Throws<Value>)
    ensures r.Ok? <==> IsUserTransaction(transaction) == Ok(true)
    ensures r.Ok? ==> r.value == transaction
    ensures Nullish(transaction) ==> r == Err(TypeError)
    ensures !Nullish(transaction) && r.Err? ==> r.error == Thrown(NOT_A_USER_TRANSACTION)
  {
    var isUser :- IsUserTransaction(transaction);
    if isUser then Ok(transaction) else Err(Thrown(NOT_A_USER_TRANSACTION))
  }

  /** Transactions of the other kinds (genesis, block metadata, state
      checkpoint, ...) and objects without a `type` are rejected with the
      resolver's message. */
  lemma OtherKindsRejected(kind: Value)
    requires kind != Str(USER_TRANSACTION)
    ensures ToUserTransaction(Obj([("type", kind)])) == Err(Thrown(NOT_A_USER_TRANSACTION))
    ensures ToUserTransaction(Obj([])) == Err(Thrown(NOT_A_USER_TRANSACTION))
  {
  }

  /** An encoded transaction passes exactly when its kind is the user kind. */
  lemma EncodedKind(t: Events.Transaction)
    ensures IsUserTransaction(Events.EncodeTransaction(t)) == Ok(t.kind == USER_TRANSACTION)
  {
    Events.TransactionFields(t);
  }
}

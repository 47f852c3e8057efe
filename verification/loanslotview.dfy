/** The loan-slot view hook (src/hooks/view/useViewLoanSlot.tsx): ten
    read-only accessors of the on-chain `loan_slot` module. Each checks its
    arguments, builds a view request, and converts the first value the chain
    returns; `getLoanSlotInfo` instead maps the whole 14-value tuple onto a
    named record. The request itself is I/O: here it is the `ViewRequest`
    value the accessor would send, and the chain's answer is a parameter. */
module LoanSlotView {
  import opened Outcome
  import opened JsValue

  const ADDRESS_REQUIRED: string := "Loan slot address is required"
  const DEBT_INDEX_REQUIRED: string := "Current debt index is required"
  const MODULE_PATH: string := "::loan_slot::"

  /** The accessors; `CurrentDebt` carries its second argument, the current
      debt index. */
  datatype Accessor =
    | Principal
    | Reserve
    | DebtIndexAtBorrow
    | OriginalPrincipal
    | Share
    | FeeGrowthDebtA
    | FeeGrowthDebtB
    | IsActive
    | CurrentDebt(curDebtIndex: string)
    | GetLoanSlotInfo

  /** The name under which the hook exposes the accessor. */
  function HookName(a: Accessor): string {
    match a
    case Principal => "principal"
    case Reserve => "reserve"
    case DebtIndexAtBorrow => "debtIndexAtBorrow"
    case OriginalPrincipal => "originalPrincipal"
    case Share => "share"
    case FeeGrowthDebtA => "feeGrowthDebtA"
    case FeeGrowthDebtB => "feeGrowthDebtB"
    case IsActive => "isActive"
    case CurrentDebt(_) => "currentDebt"
    case GetLoanSlotInfo => "getLoanSlotInfo"
  }

  /** The Move view function the accessor calls. */
  function MoveName(a: Accessor): string {
    match a
    case Principal => "principal"
    case Reserve => "reserve"
    case DebtIndexAtBorrow => "debt_index_at_borrow"
    case OriginalPrincipal => "original_principal"
    case Share => "share"
    case FeeGrowthDebtA => "fee_growth_debt_a"
    case FeeGrowthDebtB => "fee_growth_debt_b"
    case IsActive => "is_active"
    case CurrentDebt(_) => "current_debt"
    case GetLoanSlotInfo => "get_loan_slot_info"
  }

  /** A view call: the fully qualified function and its arguments. */
  datatype ViewRequest = ViewRequest(functionName: string, arguments: seq<string>)

  /** The argument checks and the request an accessor sends. An empty slot
      address is rejected first, by every accessor; `currentDebt` then also
      rejects an empty debt index. `contract` is the deployed package
      address from the configuration. */
  function Request(contract: string, a: Accessor, loanSlotAddress: string): (r: Result<ViewRequest, string>)
    ensures r.Err? <==> loanSlotAddress == "" || (a.CurrentDebt? && a.curDebtIndex == "")
    ensures loanSlotAddress == "" ==> r == Err(ADDRESS_REQUIRED)
    ensures loanSlotAddress != "" && r.Err? ==> r == Err(DEBT_INDEX_REQUIRED)
    ensures r.Ok? ==> |r.value.arguments| >= 1 && r.value.arguments[0] == loanSlotAddress
    ensures r.Ok? ==> |r.value.functionName| > |contract| && r.value.functionName[..|contract|] == contract
  {
    if loanSlotAddress == "" then Err(ADDRESS_REQUIRED)
    else if a.CurrentDebt? && a.curDebtIndex == "" then Err(DEBT_INDEX_REQUIRED)
    else
      var arguments := if a.CurrentDebt? then [loanSlotAddress, a.curDebtIndex] else [loanSlotAddress];
      Ok(ViewRequest(contract + MODULE_PATH + MoveName(a), arguments))
  }

  /** The accessor a view function name denotes, given the call's
      arguments (the reading a request is decoded by). */
  function AccessorNamed(name: string, arguments: seq<string>): Option<Accessor> {
    if name == "principal" then Some(Principal)
    else if name == "reserve" then Some(Reserve)
    else if name == "debt_index_at_borrow" then Some(DebtIndexAtBorrow)
    else if name == "original_principal" then Some(OriginalPrincipal)
    else if name == "share" then Some(Share)
    else if name == "fee_growth_debt_a" then Some(FeeGrowthDebtA)
    else if name == "fee_growth_debt_b" then Some(FeeGrowthDebtB)
    else if name == "is_active" then Some(IsActive)
    else if name == "current_debt" && |arguments| == 2 then Some(CurrentDebt(arguments[1]))
    else if name == "get_loan_slot_info" then Some(GetLoanSlotInfo)
    else None
  }

  /** Reads a request back: the accessor and the slot address, when the
      function lies in the contract's `loan_slot` module. */
  function DecodeRequest(contract: string, q: ViewRequest): Option<(Accessor, string)> {
    var prefix := contract + MODULE_PATH;
    if |q.functionName| < |prefix| || q.functionName[..|prefix|] != prefix || |q.arguments| == 0 then None
    else
      var a := AccessorNamed(q.functionName[|prefix|..], q.arguments);
      if a.None? then None else Some((a.value, q.arguments[0]))
  }

  lemma AccessorNamedOfMoveName(a: Accessor, arguments: seq<string>)
    requires a.CurrentDebt? ==> |arguments| == 2 && arguments[1] == a.curDebtIndex
    ensures AccessorNamed(MoveName(a), arguments) == Some(a)
  {
  }

  /** Every request an accessor sends names that accessor and its slot
      address: no two accessors share a view function, and the arguments
      are the ones it was given. */
  lemma RequestRoundTrip(contract: string, a: Accessor, loanSlotAddress: string)
    requires Request(contract, a, loanSlotAddress).Ok?
    ensures DecodeRequest(contract, Request(contract, a, loanSlotAddress).value) == Some((a, loanSlotAddress))
  {
    var q := Request(contract, a, loanSlotAddress).value;
    var prefix := contract + MODULE_PATH;
    assert q.functionName == prefix + MoveName(a);
    assert q.functionName[..|prefix|] == prefix;
    assert q.functionName[|prefix|..] == MoveName(a);
    AccessorNamedOfMoveName(a, q.arguments);
  }

  /** The slot-address check comes first: with an empty address even a
      `currentDebt` call without a debt index reports the missing address. */
  lemma AddressCheckedFirst(contract: string, curDebtIndex: string)
    ensures Request(contract, CurrentDebt(curDebtIndex), "") == Err(ADDRESS_REQUIRED)
    ensures Request(contract, CurrentDebt(""), "0x1") == Err(DEBT_INDEX_REQUIRED)
  {
  }

  // Converting the chain's answer.

  /** The 14 values of `get_loan_slot_info`, by name. */
  datatype LoanSlotInfo = LoanSlotInfo(
    loanPosAddr: Value,
    originalPrincipal: Value,
    principal: Value,
    share: Value,
    reserve: Value,
    debtIdxAtBorrow: Value,
    feeGrowthDebtA: Value,
    feeGrowthDebtB: Value,
    active: Value,
    createdAtTs: Value,
    withdrawnAmount: Value,
    availableWithdraw: Value,
    lastPaymentTs: Value,
    arrearsStartTs: Value)

  const INFO_SIZE: nat := 14

  /** Array destructuring: position `k`, or `undefined` past the end. */
  function At(raw: seq<Value>, k: nat): Value {
    if k < |raw| then raw[k] else Undefined
  }

  /** The record as the tuple it came from, in the contract's order. */
  function ToTuple(info: LoanSlotInfo): (r: seq<Value>)
    ensures |r| == INFO_SIZE
  {
    [info.loanPosAddr, info.originalPrincipal, info.principal, info.share, info.reserve,
      info.debtIdxAtBorrow, info.feeGrowthDebtA, info.feeGrowthDebtB, info.active,
      info.createdAtTs, info.withdrawnAmount, info.availableWithdraw, info.lastPaymentTs,
      info.arrearsStartTs]
  }

  /** `mappedLoanSlotInfo`: names the first 14 values of the raw tuple,
      unconverted; missing positions read as `undefined` and values past
      the 14th are ignored. */
  function MappedLoanSlotInfo(raw: seq<Value>): (r: LoanSlotInfo)
    ensures forall k :: 0 <= k < INFO_SIZE ==> ToTuple(r)[k] == At(raw, k)
    ensures |raw| >= INFO_SIZE ==> ToTuple(r) == raw[..INFO_SIZE]
  {
    LoanSlotInfo(At(raw, 0), At(raw, 1), At(raw, 2), At(raw, 3), At(raw, 4), At(raw, 5), At(raw, 6),
      At(raw, 7), At(raw, 8), At(raw, 9), At(raw, 10), At(raw, 11), At(raw, 12), At(raw, 13))
  }

  /** Mapping the tuple of a record gives the record back. */
  lemma MappedOfTuple(info: LoanSlotInfo)
    ensures MappedLoanSlotInfo(ToTuple(info)) == info
  {
  }

  /** The tuple of a mapped 14-value answer is that answer. */
  lemma TupleOfMapped(raw: seq<Value>)
    requires |raw| == INFO_SIZE
    ensures ToTuple(MappedLoanSlotInfo(raw)) == raw
  {
  }

  /** Values past the 14th do not change the record. */
  lemma MappedIgnoresTail(raw: seq<Value>, extra: seq<Value>)
    requires |raw| >= INFO_SIZE
    ensures MappedLoanSlotInfo(raw + extra) == MappedLoanSlotInfo(raw)
  {
    assert (raw + extra)[..INFO_SIZE] == raw[..INFO_SIZE];
    assert ToTuple(MappedLoanSlotInfo(raw + extra)) == ToTuple(MappedLoanSlotInfo(raw));
  }

  /** An empty answer maps to a record of `undefined`s. */
  lemma MappedOfEmpty()
    ensures MappedLoanSlotInfo([]) == LoanSlotInfo(Undefined, Undefined, Undefined, Undefined,
      Undefined, Undefined, Undefined, Undefined, Undefined, Undefined, Undefined, Undefined,
      Undefined, Undefined)
  {
  }

  /** What an accessor resolves to. */
  datatype Reply = Text(s: string) | Flag(b: bool) | Info(info: LoanSlotInfo)

  /** The accessor's conversion of the chain's answer: `String` of the first
      value, `Boolean` of it for `isActive`, the mapped tuple for
      `getLoanSlotInfo`. */
  function Respond(a: Accessor, response: seq<Value>): (r: Reply)
    ensures a.GetLoanSlotInfo? <==> r.Info?
    ensures a.IsActive? <==> r.Flag?
  {
    match a
    case IsActive => Flag(Truthy(At(response, 0)))
    case GetLoanSlotInfo => Info(MappedLoanSlotInfo(response))
    case _ => Text(ToStr(At(response, 0)))
  }

  /** The string accessors pass a decimal string answer through and turn a
      missing one into the text "undefined"; `isActive` reads a missing
      answer as false. */
  lemma RespondPassesStrings(a: Accessor, s: string, rest: seq<Value>)
    requires !a.IsActive? && !a.GetLoanSlotInfo?
    ensures Respond(a, [Str(s)] + rest) == Text(s)
    ensures Respond(a, []) == Text("undefined")
    ensures Respond(IsActive, []) == Flag(false)
  {
    assert At([Str(s)] + rest, 0) == Str(s);
  }

  /** The full accessor: the argument checks, then the conversion of the
      chain's answer to the request. */
  function Call(contract: string, a: Accessor, loanSlotAddress: string, answer: ViewRequest -> seq<Value>): (r: Result<Reply, string>)
    ensures r.Err? <==> Request(contract, a, loanSlotAddress).Err?
    ensures r.Ok? ==> r.value == Respond(a, answer(Request(contract, a, loanSlotAddress).value))
  {
    var q :- Request(contract, a, loanSlotAddress);
    Ok(Respond(a, answer(q)))
  }

  /** An empty slot address never reaches the chain, whatever it would have
      answered. */
  lemma EmptyAddressNeverQueries(contract: string, a: Accessor,
                                 answer1: ViewRequest -> seq<Value>, answer2: ViewRequest -> seq<Value>)
    ensures Call(contract, a, "", answer1) == Call(contract, a, "", answer2) == Err(ADDRESS_REQUIRED)
  {
  }
}

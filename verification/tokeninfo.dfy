/** `extractTokenInfo` (src/libs/normalizers/extractTokenInfo.ts): a token
    reference from an event, either a bare address or an object wrapping it
    under `inner`, reduced to its address. */
module TokenInfo {
  import opened JsValue

  datatype TokenInfo = TokenInfo(address: Value, objectAddress: Value)

  /** A falsy reference gives two empty addresses; otherwise the address is
      `inner` when that is truthy and the reference itself when not. Both
      fields always hold the same address. */
  function ExtractTokenInfo(token: Value): (r: TokenInfo)
    ensures r.address == r.objectAddress
    ensures !Truthy(token) ==> r.address == Str("")
    ensures Truthy(token) && Truthy(Prop(token, "inner")) ==> r.address == Prop(token, "inner")
    ensures Truthy(token) && !Truthy(Prop(token, "inner")) ==> r.address == token
    ensures Truthy(token) ==> Truthy(r.address)
  {
    if !Truthy(token) then TokenInfo(Str(""), Str(""))
    else
      var objectAddress := Or(Prop(token, "inner"), token);
      TokenInfo(objectAddress, objectAddress)
  }

  /** An address wrapped as `{inner: address}` and the bare address give the
      same token info. */
  lemma WrappedAndBareAgree(address: string)
    requires address != ""
    ensures ExtractTokenInfo(Obj([("inner", Str(address))])) == ExtractTokenInfo(Str(address))
    ensures ExtractTokenInfo(Str(address)) == TokenInfo(Str(address), Str(address))
  {
  }
}

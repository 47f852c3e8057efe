/** The loosely typed JavaScript values the client receives from the chain
    (committed transactions, event payloads, view results), together with the
    language rules the client code leans on: truthiness, `||`, property reads
    with and without optional chaining, and `toString`.

    JSON numbers are integers here: the chain reports u64 quantities as
    decimal strings and small enums (indices, risk factors) as integers. An
    object is the ordered list of its entries; reading a key yields its last
    entry, as `JSON.parse` and `Object.fromEntries` resolve duplicates. */
module JsValue {
  import opened Outcome
  import opened Decimal

  datatype Value =
    | Undefined
    | Null
    | Bool(b: bool)
    | Int(i: int)
    | Str(s: string)
    | Arr(items: seq<Value>)
    | Obj(entries: seq<(string, Value)>)

  /** What a `throw` inside the client code can carry. */
  datatype JsError = TypeError | Thrown(message: string)

  type Throws<T> = Result<T, JsError>

  predicate Nullish(v: Value) {
    v.Undefined? || v.Null?
  }

  /** JavaScript truthiness: `undefined`, `null`, `false`, `0` and `""` are falsy. */
  predicate Truthy(v: Value) {
    match v
    case Undefined => false
    case Null => false
    case Bool(b) => b
    case Int(i) => i != 0
    case Str(s) => s != ""
    case Arr(_) => true
    case Obj(_) => true
  }

  /** `a || b`. */
  function Or(a: Value, b: Value): Value {
    if Truthy(a) then a else b
  }

  /** The value of the last entry named `key`, or `undefined`. */
  function Lookup(entries: seq<(string, Value)>, key: string): Value
    decreases |entries|
  {
    if |entries| == 0 then Undefined
    else if entries[|entries| - 1].0 == key then entries[|entries| - 1].1
    else Lookup(entries[..|entries| - 1], key)
  }

  function KeySet(entries: seq<(string, Value)>): set<string> {
    set i | 0 <= i < |entries| :: entries[i].0
  }

  predicate DistinctKeys(entries: seq<(string, Value)>) {
    forall i, j :: 0 <= i < j < |entries| ==> entries[i].0 != entries[j].0
  }

  /** The value stored under a key is the value of its last entry. */
  lemma {:induction false} LookupLastEntry(entries: seq<(string, Value)>, i: int)
    requires 0 <= i < |entries|
    requires forall j :: i < j < |entries| ==> entries[j].0 != entries[i].0
    ensures Lookup(entries, entries[i].0) == entries[i].1
    decreases |entries|
  {
    if i < |entries| - 1 {
      LookupLastEntry(entries[..|entries| - 1], i);
    }
  }

  /** With distinct keys every entry is read back under its key. */
  lemma LookupDistinct(entries: seq<(string, Value)>)
    requires DistinctKeys(entries)
    ensures forall i :: 0 <= i < |entries| ==> Lookup(entries, entries[i].0) == entries[i].1
  {
    forall i | 0 <= i < |entries|
      ensures Lookup(entries, entries[i].0) == entries[i].1
    {
      LookupLastEntry(entries, i);
    }
  }

  predicate DistinctStrings(keys: seq<string>) {
    forall i, j :: 0 <= i < j < |keys| ==> keys[i] != keys[j]
  }

  /** The object with the given keys and values, in order. */
  function Zip(keys: seq<string>, values: seq<Value>): (r: seq<(string, Value)>)
    requires |keys| == |values|
    ensures |r| == |keys|
    ensures forall i :: 0 <= i < |r| ==> r[i] == (keys[i], values[i])
  {
    seq(|keys|, i requires 0 <= i < |keys| => (keys[i], values[i]))
  }

  /** An object built from distinct keys reads every value back. */
  lemma LookupZip(keys: seq<string>, values: seq<Value>)
    requires |keys| == |values| && DistinctStrings(keys)
    ensures forall i :: 0 <= i < |keys| ==> Lookup(Zip(keys, values), keys[i]) == values[i]
  {
    var e := Zip(keys, values);
    forall i | 0 <= i < |keys|
      ensures Lookup(e, keys[i]) == values[i]
    {
      LookupLastEntry(e, i);
    }
  }

  /** A key without an entry reads as `undefined`. */
  lemma {:induction false} LookupMissing(entries: seq<(string, Value)>, key: string)
    requires key !in KeySet(entries)
    ensures Lookup(entries, key) == Undefined
    decreases |entries|
  {
    if |entries| > 0 {
      assert entries[|entries| - 1].0 in KeySet(entries);
      var init := entries[..|entries| - 1];
      assert KeySet(init) <= KeySet(entries) by {
        forall k | k in KeySet(init)
          ensures k in KeySet(entries)
        {
          var j :| 0 <= j < |init| && init[j].0 == k;
          assert entries[j].0 == k;
        }
      }
      LookupMissing(init, key);
    }
  }

  /** A key reads as `undefined` or as the value of one of the entries. */
  lemma {:induction false} LookupFrom(entries: seq<(string, Value)>, key: string)
    ensures Lookup(entries, key) == Undefined
      || exists j :: 0 <= j < |entries| && Lookup(entries, key) == entries[j].1
    decreases |entries|
  {
    if |entries| > 0 && entries[|entries| - 1].0 != key {
      var init := entries[..|entries| - 1];
      LookupFrom(init, key);
      if Lookup(init, key) != Undefined {
        var j :| 0 <= j < |init| && Lookup(init, key) == init[j].1;
        assert entries[j] == init[j];
      }
    }
  }

  /** An object none of whose values throws on `toString` lets every field
      be rendered. */
  lemma QuietFields(entries: seq<(string, Value)>, keys: seq<string>)
    requires forall j :: 0 <= j < |entries| ==> !ToStrThrows(entries[j].1)
    ensures !SomeToStrThrows(Obj(entries), keys)
  {
    forall i | 0 <= i < |keys|
      ensures !ToStrThrows(Prop(Obj(entries), keys[i]))
    {
      LookupFrom(entries, keys[i]);
    }
  }

  /** `v?.key`: `undefined` on a nullish value and on a value without that key. */
  function Prop(v: Value, key: string): Value {
    if v.Obj? then Lookup(v.entries, key) else Undefined
  }

  /** `v.key`: reading a property of `undefined` or `null` throws a TypeError. */
  function Access(v: Value, key: string): (r: Throws<Value>)
    ensures r.Err? <==> Nullish(v)
    ensures r.Ok? ==> r.value == Prop(v, key)
  {
    if Nullish(v) then Err(TypeError) else Ok(Prop(v, key))
  }

  /** `String(v)`, which for a non-nullish value is also `v.toString()`:
      arrays join their elements with "," and show nullish elements as "". */
  function ToStr(v: Value): string
    decreases v
  {
    match v
    case Undefined => "undefined"
    case Null => "null"
    case Bool(b) => if b then "true" else "false"
    case Int(i) => IntToDecimal(i)
    case Str(s) => s
    case Arr(items) =>
      JoinComma(seq(|items|, k requires 0 <= k < |items| =>
        if Nullish(items[k]) then "" else ToStr(items[k])))
    case Obj(_) => "[object Object]"
  }

  function JoinComma(parts: seq<string>): string
    decreases |parts|
  {
    if |parts| == 0 then ""
    else if |parts| == 1 then parts[0]
    else JoinComma(parts[..|parts| - 1]) + "," + parts[|parts| - 1]
  }

  /** Whether `v.toString()`, and so `String(v)`, throws a TypeError. A
      JSON value is never a function, so an object's own `toString` entry
      hides the inherited method behind something that cannot be called;
      an array's `toString` converts its non-nullish elements in turn, and
      converting such an object fails as well. */
  predicate ToStrThrows(v: Value)
    decreases v
  {
    match v
    case Obj(entries) => "toString" in KeySet(entries)
    case Arr(items) => exists k :: 0 <= k < |items| && ToStrThrows(items[k])
    case _ => false
  }

  /** One of the fields of `data` named in `keys` holds a value whose
      `toString` throws. */
  predicate SomeToStrThrows(data: Value, keys: seq<string>) {
    exists i :: 0 <= i < |keys| && ToStrThrows(Prop(data, keys[i]))
  }

  /** `v?.toString() || "0"`, the client's way of reading an on-chain amount,
      when it does not throw (`ToStrThrows` says when it does): never empty,
      "0" for an absent or empty field, the field itself for a non-empty
      string, the decimal rendering for a number, and "[object Object]" for
      an object. */
  function ToStringOrZero(v: Value): (r: string)
    ensures r != ""
    ensures Nullish(v) ==> r == "0"
    ensures v.Str? ==> r == if v.s == "" then "0" else v.s
    ensures v.Int? ==> r == IntToDecimal(v.i)
    ensures v.Obj? ==> r == "[object Object]"
  {
    if Nullish(v) then "0"
    else
      var s := ToStr(v);
      if s == "" then "0" else s
  }

  /** Reading the rendering of an on-chain amount (a u64 quantity) back gives
      the amount, whether the chain's JSON sent it as a number or as a decimal
      string. */
  lemma AmountRoundTrip(n: nat)
    ensures ToStringOrZero(Int(n)) == NatToDecimal(n)
    ensures ToStringOrZero(Str(NatToDecimal(n))) == NatToDecimal(n)
    ensures ParseDigits(ToStringOrZero(Int(n))) == n
  {
    ParseOfRender(n);
  }
}

/** What every transaction normaliser shares: `events.find(event =>
    event.type.includes(tag))`, `found?.data`, and the success flag; plus a
    typed view of a committed transaction and its encoding as the loosely
    typed value the chain returns, against which the normalisers are
    checked. */
module Events {
  import opened Outcome
  import opened Decimal
  import opened JsValue
  import JsString

  /** `event.type.includes(tag)`: substring search on a string type, element
      search on an array; reading `type` of a nullish event throws, and a
      type without `includes` (missing, a number, an object) throws when it
      is called. */
  function MatchesTag(event: Value, tag: string): (r: Throws<bool>)
    ensures r.Ok? <==> !Nullish(event) && (Prop(event, "type").Str? || Prop(event, "type").Arr?)
    ensures Prop(event, "type").Str? ==> r == Ok(JsString.Includes(Prop(event, "type").s, tag))
  {
    var kind :- Access(event, "type");
    match kind
    case Str(s) => Ok(JsString.Includes(s, tag))
    case Arr(items) => Ok(Str(tag) in items)
    case _ => Err(TypeError)
  }

  /** Element `i` is the first one whose type contains the tag: every element
      before it was tested and did not match. */
  predicate FirstMatchAt(items: seq<Value>, tag: string, i: int) {
    0 <= i < |items| && MatchesTag(items[i], tag) == Ok(true)
    && forall j :: 0 <= j < i ==> MatchesTag(items[j], tag) == Ok(false)
  }

  /** Element `i` is the first one whose test throws, after elements that
      did not match. */
  predicate FirstThrowAt(items: seq<Value>, tag: string, i: int) {
    0 <= i < |items| && MatchesTag(items[i], tag).Err?
    && forall j :: 0 <= j < i ==> MatchesTag(items[j], tag) == Ok(false)
  }

  /** `Array.prototype.find` with the tag test: the first match, `undefined`
      when every element was tested and none matched, and the error of the
      first test that throws before any match. */
  function Find(items: seq<Value>, tag: string): (r: Throws<Option<Value>>)
    ensures r.Ok? && r.value.Some? ==> exists i :: FirstMatchAt(items, tag, i) && r.value.value == items[i]
    ensures r.Err? ==> exists i :: FirstThrowAt(items, tag, i)
    ensures r == Ok(None) <==> forall j :: 0 <= j < |items| ==> MatchesTag(items[j], tag) == Ok(false)
    decreases |items|
  {
    if |items| == 0 then Ok(None)
    else
      var head := MatchesTag(items[0], tag);
      if head.Err? then
        assert FirstThrowAt(items, tag, 0);
        Err(head.error)
      else if head.value then
        assert FirstMatchAt(items, tag, 0);
        Ok(Some(items[0]))
      else
        var r := Find(items[1..], tag);
        FindShift(items, tag, r);
        r
  }

  lemma FindShift(items: seq<Value>, tag: string, r: Throws<Option<Value>>)
    requires |items| > 0 && MatchesTag(items[0], tag) == Ok(false)
    requires r.Ok? && r.value.Some? ==> exists i :: FirstMatchAt(items[1..], tag, i) && r.value.value == items[1..][i]
    requires r.Err? ==> exists i :: FirstThrowAt(items[1..], tag, i)
    requires r == Ok(None) <==> forall j :: 0 <= j < |items[1..]| ==> MatchesTag(items[1..][j], tag) == Ok(false)
    ensures r.Ok? && r.value.Some? ==> exists i :: FirstMatchAt(items, tag, i) && r.value.value == items[i]
    ensures r.Err? ==> exists i :: FirstThrowAt(items, tag, i)
    ensures r == Ok(None) <==> forall j :: 0 <= j < |items| ==> MatchesTag(items[j], tag) == Ok(false)
  {
    if r.Ok? && r.value.Some? {
      var i :| FirstMatchAt(items[1..], tag, i) && r.value.value == items[1..][i];
      assert FirstMatchAt(items, tag, i + 1);
    }
    if r.Err? {
      var i :| FirstThrowAt(items[1..], tag, i);
      assert FirstThrowAt(items, tag, i + 1);
    }
    if forall j :: 0 <= j < |items[1..]| ==> MatchesTag(items[1..][j], tag) == Ok(false) {
      forall j | 0 <= j < |items|
        ensures MatchesTag(items[j], tag) == Ok(false)
      {
        if j > 0 {
          assert items[j] == items[1..][j - 1];
        }
      }
    }
  }

  /** Only the first match counts: whatever follows it is never tested. */
  lemma {:induction false} FindStopsAtFirstMatch(items: seq<Value>, tag: string, i: int, rest: seq<Value>)
    requires FirstMatchAt(items, tag, i)
    ensures Find(items, tag) == Ok(Some(items[i]))
    ensures Find(items[..i + 1] + rest, tag) == Ok(Some(items[i]))
    decreases |items|
  {
    var tail := items[..i + 1] + rest;
    assert FirstMatchAt(tail, tag, i) by {
      assert forall j :: 0 <= j <= i ==> tail[j] == items[j];
    }
    FindUnique(items, tag, i);
    FindUnique(tail, tag, i);
  }

  /** A first match is where `Find` stops. */
  lemma {:induction false} FindUnique(items: seq<Value>, tag: string, i: int)
    requires FirstMatchAt(items, tag, i)
    ensures Find(items, tag) == Ok(Some(items[i]))
    decreases |items|
  {
    if i > 0 {
      assert MatchesTag(items[0], tag) == Ok(false);
      assert FirstMatchAt(items[1..], tag, i - 1) by {
        forall j | 0 <= j < i - 1
          ensures MatchesTag(items[1..][j], tag) == Ok(false)
        {
          assert items[1..][j] == items[j + 1];
        }
      }
      FindUnique(items[1..], tag, i - 1);
    }
  }

  /** `transaction.events.find(...)`: `events` must be an array, as anything
      else has no callable `find`. */
  function FindEvent(events: Value, tag: string): (r: Throws<Option<Value>>)
    ensures !events.Arr? ==> r == Err(TypeError)
    ensures events.Arr? ==> r == Find(events.items, tag)
  {
    if events.Arr? then Find(events.items, tag) else Err(TypeError)
  }

  /** `found?.data`. */
  function EventData(found: Option<Value>): (r: Value)
    ensures found.None? ==> r == Undefined
    ensures found.Some? ==> r == Prop(found.value, "data")
  {
    if found.Some? then Prop(found.value, "data") else Undefined
  }

  const EXECUTED_SUCCESSFULLY: string := "Executed successfully"

  /** `transaction.success || transaction.vm_status === 'Executed successfully'`. */
  function Success(transaction: Value): (r: Value)
    ensures Truthy(Prop(transaction, "success")) ==> r == Prop(transaction, "success")
    ensures !Truthy(Prop(transaction, "success")) ==>
      r == Bool(Prop(transaction, "vm_status") == Str(EXECUTED_SUCCESSFULLY))
  {
    Or(Prop(transaction, "success"), Bool(Prop(transaction, "vm_status") == Str(EXECUTED_SUCCESSFULLY)))
  }

  // A typed committed transaction, as the chain describes it, and its
  // encoding as the loosely typed value the client receives.

  datatype Event = Event(eventType: string, data: Value)

  datatype Transaction = Transaction(
    kind: string,
    hash: string,
    timestamp: string,
    gasUsed: string,
    success: bool,
    vmStatus: string,
    events: seq<Event>)

  function EncodeEvent(e: Event): Value {
    Obj([("type", Str(e.eventType)), ("data", e.data)])
  }

  function EncodeEvents(es: seq<Event>): (r: seq<Value>)
    ensures |r| == |es|
    ensures forall i :: 0 <= i < |es| ==> r[i] == EncodeEvent(es[i])
    decreases |es|
  {
    if |es| == 0 then [] else [EncodeEvent(es[0])] + EncodeEvents(es[1..])
  }

  function TransactionEntries(t: Transaction): seq<(string, Value)> {
    [("type", Str(t.kind)), ("hash", Str(t.hash)), ("timestamp", Str(t.timestamp)),
     ("gas_used", Str(t.gasUsed)), ("success", Bool(t.success)),
     ("vm_status", Str(t.vmStatus)), ("events", Arr(EncodeEvents(t.events)))]
  }

  function EncodeTransaction(t: Transaction): Value {
    Obj(TransactionEntries(t))
  }

  /** The encoded transaction's fields read back as the typed ones. */
  lemma TransactionFields(t: Transaction)
    ensures Prop(EncodeTransaction(t), "type") == Str(t.kind)
    ensures Prop(EncodeTransaction(t), "hash") == Str(t.hash)
    ensures Prop(EncodeTransaction(t), "timestamp") == Str(t.timestamp)
    ensures Prop(EncodeTransaction(t), "gas_used") == Str(t.gasUsed)
    ensures Prop(EncodeTransaction(t), "success") == Bool(t.success)
    ensures Prop(EncodeTransaction(t), "vm_status") == Str(t.vmStatus)
    ensures Prop(EncodeTransaction(t), "events") == Arr(EncodeEvents(t.events))
  {
    var e := TransactionEntries(t);
    forall i | 0 <= i < |e|
      ensures Lookup(e, e[i].0) == e[i].1
    {
      LookupLastEntry(e, i);
    }
    assert e[0].0 == "type" && e[1].0 == "hash" && e[2].0 == "timestamp" && e[3].0 == "gas_used";
    assert e[4].0 == "success" && e[5].0 == "vm_status" && e[6].0 == "events";
  }

  /** The typed reading of "the first event whose type contains the tag". */
  function FirstTagged(es: seq<Event>, tag: string): (r: Option<Event>)
    ensures r.Some? ==> r.value in es && JsString.Includes(r.value.eventType, tag)
    decreases |es|
  {
    if |es| == 0 then None
    else if JsString.Includes(es[0].eventType, tag) then Some(es[0])
    else FirstTagged(es[1..], tag)
  }

  /** The data of the first typed event whose type contains the tag, or
      `undefined` when there is none. */
  function TaggedData(t: Transaction, tag: string): Value {
    if FirstTagged(t.events, tag).Some? then FirstTagged(t.events, tag).value.data else Undefined
  }

  function EncodeFound(e: Option<Event>): Option<Value> {
    if e.Some? then Some(EncodeEvent(e.value)) else None
  }

  lemma EventFields(e: Event)
    ensures Prop(EncodeEvent(e), "type") == Str(e.eventType)
    ensures Prop(EncodeEvent(e), "data") == e.data
  {
    var entries := [("type", Str(e.eventType)), ("data", e.data)];
    LookupLastEntry(entries, 0);
    LookupLastEntry(entries, 1);
  }

  /** On encoded events the search never throws and finds the encoding of
      the first typed event whose type contains the tag. */
  lemma {:induction false} FindEncoded(es: seq<Event>, tag: string)
    ensures Find(EncodeEvents(es), tag) == Ok(EncodeFound(FirstTagged(es, tag)))
    decreases |es|
  {
    if |es| > 0 {
      EventFields(es[0]);
      var items := EncodeEvents(es);
      assert items[0] == EncodeEvent(es[0]);
      if !JsString.Includes(es[0].eventType, tag) {
        assert items[1..] == EncodeEvents(es[1..]);
        FindEncoded(es[1..], tag);
      }
    }
  }

  /** The success flag of an encoded transaction. */
  lemma EncodedSuccess(t: Transaction)
    ensures Success(EncodeTransaction(t)) == Bool(t.success || t.vmStatus == EXECUTED_SUCCESSFULLY)
  {
    TransactionFields(t);
  }

  /** The event search on an encoded transaction. */
  lemma FindEventEncoded(t: Transaction, tag: string)
    ensures FindEvent(Prop(EncodeTransaction(t), "events"), tag) == Ok(EncodeFound(FirstTagged(t.events, tag)))
    ensures EventData(EncodeFound(FirstTagged(t.events, tag))) == TaggedData(t, tag)
  {
    TransactionFields(t);
    FindEncoded(t.events, tag);
    if FirstTagged(t.events, tag).Some? {
      EventFields(FirstTagged(t.events, tag).value);
    }
  }
}

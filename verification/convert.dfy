/** `snakeToCamel` (src/libs/helpers/convert.ts): rewrites the keys of every
    plain object in a JSON-like value from snake_case to camelCase. */
module Convert {
  import opened JsValue

  predicate IsLower(c: char) {
    'a' <= c <= 'z'
  }

  predicate IsUpper(c: char) {
    'A' <= c <= 'Z'
  }

  function ToUpper(c: char): (u: char)
    requires IsLower(c)
    ensures IsUpper(u)
  {
    (c as int - 32) as char
  }

  /** Some "_" is directly followed by a lower-case ASCII letter: a place the
      regular expression `/_([a-z])/g` matches. */
  predicate HasSnakeHump(k: string) {
    exists i :: 0 <= i < |k| - 1 && k[i] == '_' && IsLower(k[i + 1])
  }

  /** `k.replace(/_([a-z])/g, (_, g) => g.toUpperCase())`: scanning left to
      right, each non-overlapping "_" + lower-case letter becomes the
      upper-case letter; every other character is kept. The result never
      holds a match, it is `k` itself when `k` holds none and strictly
      shorter otherwise. */
  function CamelKey(k: string): (r: string)
    ensures !HasSnakeHump(r)
    ensures !HasSnakeHump(k) ==> r == k
    ensures HasSnakeHump(k) ==> |r| < |k|
    ensures |r| <= |k|
    ensures |k| > 0 ==> |r| > 0 && (IsLower(r[0]) ==> r[0] == k[0])
    decreases |k|
  {
    if |k| == 0 then ""
    else if |k| >= 2 && k[0] == '_' && IsLower(k[1]) then
      var rest := CamelKey(k[2..]);
      var r := [ToUpper(k[1])] + rest;
      assert forall i :: 0 < i < |r| - 1 ==> r[i] == rest[i - 1] && r[i + 1] == rest[i];
      r
    else
      var rest := CamelKey(k[1..]);
      var r := [k[0]] + rest;
      assert forall i :: 0 < i < |r| - 1 ==> r[i] == rest[i - 1] && r[i + 1] == rest[i];
      assert HasSnakeHump(k) ==> HasSnakeHump(k[1..]) by {
        if HasSnakeHump(k) {
          var i :| 0 <= i < |k| - 1 && k[i] == '_' && IsLower(k[i + 1]);
          assert i > 0;
          assert k[1..][i - 1] == '_' && IsLower(k[1..][i]);
        }
      }
      assert !HasSnakeHump(k[1..]) && !HasSnakeHump(k) ==> r == k;
      r
  }

  /** The key rewrite leaves a key alone exactly when it holds no match, and
      applying it twice is applying it once. */
  lemma CamelKeyFixpoint(k: string)
    ensures CamelKey(k) == k <==> !HasSnakeHump(k)
    ensures CamelKey(CamelKey(k)) == CamelKey(k)
  {
  }

  /** A key without any "_" is never rewritten. */
  lemma CamelKeyWithoutUnderscore(k: string)
    requires forall i :: 0 <= i < |k| ==> k[i] != '_'
    ensures CamelKey(k) == k
  {
  }

  /** A hump on its own becomes its upper-case letter; any other single
      character is kept. */
  lemma CamelKeyHump(c: char)
    ensures IsLower(c) ==> CamelKey(['_', c]) == [ToUpper(c)]
    ensures CamelKey([c]) == [c]
  {
    assert ['_', c][2..] == [];
    assert [c][1..] == [];
  }

  /** The rewrite works piece by piece: splitting a key anywhere but inside
      a hump, the rewritten key is the two rewritten pieces, in order.
      With `CamelKeyHump` this fixes the rewrite of every key: each hump
      becomes its upper-case letter and every other character is kept. */
  lemma {:induction false} CamelKeyAppend(a: string, b: string)
    requires !(|a| > 0 && a[|a| - 1] == '_' && |b| > 0 && IsLower(b[0]))
    ensures CamelKey(a + b) == CamelKey(a) + CamelKey(b)
    decreases |a|
  {
    var ab := a + b;
    if |a| == 0 {
      assert ab == b;
    } else if |a| >= 2 && a[0] == '_' && IsLower(a[1]) {
      var rest := a[2..];
      assert ab[0] == '_' && ab[1] == a[1];
      assert ab[2..] == rest + b;
      assert |rest| > 0 ==> rest[|rest| - 1] == a[|a| - 1];
      CamelKeyAppend(rest, b);
      assert CamelKey(ab) == [ToUpper(a[1])] + CamelKey(rest + b);
      assert CamelKey(a) == [ToUpper(a[1])] + CamelKey(rest);
      AppendAssociates([ToUpper(a[1])], CamelKey(rest), CamelKey(b));
    } else {
      var rest := a[1..];
      assert ab[0] == a[0];
      assert |ab| >= 2 ==> ab[1] == if |a| >= 2 then a[1] else b[0];
      assert ab[1..] == rest + b;
      assert |rest| > 0 ==> rest[|rest| - 1] == a[|a| - 1];
      CamelKeyAppend(rest, b);
      assert CamelKey(ab) == [a[0]] + CamelKey(rest + b);
      assert CamelKey(a) == [a[0]] + CamelKey(rest);
      AppendAssociates([a[0]], CamelKey(rest), CamelKey(b));
    }
  }

  lemma AppendAssociates(x: string, p: string, q: string)
    ensures x + (p + q) == (x + p) + q
  {
  }

  /** A key with a hump comes out with an upper-case letter. */
  lemma {:induction false} HumpLeavesUpper(k: string)
    requires HasSnakeHump(k)
    ensures exists i :: 0 <= i < |CamelKey(k)| && IsUpper(CamelKey(k)[i])
    decreases |k|
  {
    if |k| >= 2 && k[0] == '_' && IsLower(k[1]) {
      assert IsUpper(CamelKey(k)[0]);
    } else {
      var i :| 0 <= i < |k| - 1 && k[i] == '_' && IsLower(k[i + 1]);
      assert k[1..][i - 1] == '_' && IsLower(k[1..][i]);
      HumpLeavesUpper(k[1..]);
      var j :| 0 <= j < |CamelKey(k[1..])| && IsUpper(CamelKey(k[1..])[j]);
      assert CamelKey(k)[j + 1] == CamelKey(k[1..])[j];
    }
  }

  /** A key with neither "_" nor an upper-case letter is the rewrite of
      itself and of no other key. */
  lemma CamelKeyOnlyFrom(k: string, t: string)
    requires forall i :: 0 <= i < |t| ==> t[i] != '_' && !IsUpper(t[i])
    ensures CamelKey(k) == t <==> k == t
  {
    CamelKeyWithoutUnderscore(t);
    if HasSnakeHump(k) {
      HumpLeavesUpper(k);
      var i :| 0 <= i < |CamelKey(k)| && IsUpper(CamelKey(k)[i]);
      assert CamelKey(k) != t by {
        if |CamelKey(k)| == |t| {
          assert !IsUpper(t[i]);
        }
      }
    }
  }

  /** The rewrite neither creates nor removes a `constructor` key. */
  lemma CamelKeyConstructor(k: string)
    ensures CamelKey(k) == "constructor" <==> k == "constructor"
  {
    var t := "constructor";
    assert forall i :: 0 <= i < |t| ==> t[i] != '_' && !IsUpper(t[i]);
    CamelKeyOnlyFrom(k, t);
  }

  /** Replaces the value of the last entry named `key`. */
  function ReplaceLast(entries: seq<(string, Value)>, key: string, v: Value): (r: seq<(string, Value)>)
    requires key in KeySet(entries)
    ensures |r| == |entries|
    ensures forall i :: 0 <= i < |r| ==> r[i].0 == entries[i].0
    ensures KeySet(r) == KeySet(entries)
    ensures forall k :: Lookup(r, k) == if k == key then v else Lookup(entries, k)
    ensures forall e :: e in r ==> e in entries || e == (key, v)
    decreases |entries|
  {
    var n := |entries| - 1;
    if entries[n].0 == key then entries[..n] + [(key, v)]
    else
      assert key in KeySet(entries[..n]) by {
        var i :| 0 <= i < |entries| && entries[i].0 == key;
        assert i < n && entries[..n][i].0 == key;
      }
      var r := ReplaceLast(entries[..n], key, v) + [entries[n]];
      assert r[..n] == ReplaceLast(entries[..n], key, v);
      r
  }

  lemma KeySetAppend(entries: seq<(string, Value)>, key: string, v: Value)
    ensures KeySet(entries + [(key, v)]) == KeySet(entries) + {key}
    ensures forall k :: Lookup(entries + [(key, v)], k) == if k == key then v else Lookup(entries, k)
  {
    var e := entries + [(key, v)];
    assert e[..|entries|] == entries;
    assert forall i :: 0 <= i < |entries| ==> e[i] == entries[i];
    assert e[|entries|].0 == key;
  }

  /** Adds an entry, overwriting the value of an existing key in place. */
  function Upsert(entries: seq<(string, Value)>, key: string, v: Value): (r: seq<(string, Value)>)
    ensures KeySet(r) == KeySet(entries) + {key}
    ensures forall k :: Lookup(r, k) == if k == key then v else Lookup(entries, k)
    ensures DistinctKeys(entries) ==> DistinctKeys(r)
    ensures key in KeySet(entries) ==> |r| == |entries|
    ensures key !in KeySet(entries) ==> r == entries + [(key, v)]
    ensures forall e :: e in r ==> e in entries || e == (key, v)
  {
    if key in KeySet(entries) then
      var r := ReplaceLast(entries, key, v);
      assert DistinctKeys(entries) ==> DistinctKeys(r) by {
        assert forall i :: 0 <= i < |r| ==> r[i].0 == entries[i].0;
      }
      r
    else
      KeySetAppend(entries, key, v);
      var r := entries + [(key, v)];
      assert DistinctKeys(entries) ==> DistinctKeys(r) by {
        assert forall i :: 0 <= i < |entries| ==> r[i] == entries[i] && entries[i].0 in KeySet(entries);
      }
      r
  }

  /** `Object.fromEntries(entries)`: one entry per distinct key, in order of
      first appearance, each carrying the value of the key's last entry. */
  function FromEntries(entries: seq<(string, Value)>): (r: seq<(string, Value)>)
    ensures DistinctKeys(r)
    ensures KeySet(r) == KeySet(entries)
    ensures |r| <= |entries|
    ensures forall k :: Lookup(r, k) == Lookup(entries, k)
    ensures DistinctKeys(entries) ==> r == entries
    ensures forall e :: e in r ==> e in entries
    decreases |entries|
  {
    if |entries| == 0 then []
    else
      var n := |entries| - 1;
      var init := FromEntries(entries[..n]);
      var (key, v) := entries[n];
      assert entries == entries[..n] + [(key, v)];
      KeySetAppend(entries[..n], key, v);
      assert DistinctKeys(entries) ==> key !in KeySet(entries[..n]) by {
        assert forall i :: 0 <= i < n ==> entries[..n][i] == entries[i];
      }
      Upsert(init, key, v)
  }

  /** `obj.constructor === Object` on a JSON-like object: an own
      `constructor` entry hides the inherited `Object`, and no JSON value is
      that function, so exactly the objects without such an entry pass. */
  predicate PlainObject(v: Value) {
    v.Obj? && "constructor" !in KeySet(v.entries)
  }

  /** `snakeToCamel(obj)`: falsy values become `null`, arrays are converted
      element by element, plain objects get camelCase keys and converted
      values, and every other value (an object with its own `constructor`
      entry included) is returned as it is. (Arrays and objects are always
      truthy, so testing them first is the source's `!obj` test made after
      instead of before.) */
  function SnakeToCamel(v: Value): (r: Value)
    ensures !Truthy(v) ==> r == Null
    ensures Truthy(v) && !v.Arr? && !PlainObject(v) ==> r == v
    ensures v.Arr? ==> r.Arr? && |r.items| == |v.items|
    ensures PlainObject(v) ==> r.Obj? && |r.entries| <= |v.entries| && DistinctKeys(r.entries)
    decreases v, 1
  {
    match v
      case Arr(_) => Arr(ConvertItems(v, 0))
      case Obj(entries) =>
        if "constructor" in KeySet(entries) then v else Obj(FromEntries(ConvertEntries(v, 0)))
      case _ => if Truthy(v) then v else Null
  }

  /** `items.map(snakeToCamel)` from position `from` on. */
  function ConvertItems(parent: Value, from: nat): (r: seq<Value>)
    requires parent.Arr? && from <= |parent.items|
    ensures |r| == |parent.items| - from
    ensures forall i :: 0 <= i < |r| ==> r[i] == SnakeToCamel(parent.items[from + i])
    decreases parent, 0, |parent.items| - from
  {
    if from == |parent.items| then []
    else
      var rest := ConvertItems(parent, from + 1);
      var r := [SnakeToCamel(parent.items[from])] + rest;
      assert forall i :: 1 <= i < |r| ==> r[i] == rest[i - 1];
      r
  }

  /** The entries of a converted object, from position `from` on, before
      `Object.fromEntries` merges duplicate keys. */
  function ConvertEntries(parent: Value, from: nat): (r: seq<(string, Value)>)
    requires parent.Obj? && from <= |parent.entries|
    ensures |r| == |parent.entries| - from
    ensures forall i :: 0 <= i < |r| ==>
      r[i] == (CamelKey(parent.entries[from + i].0), SnakeToCamel(parent.entries[from + i].1))
    decreases parent, 0, |parent.entries| - from
  {
    if from == |parent.entries| then []
    else
      var (k, x) := parent.entries[from];
      var rest := ConvertEntries(parent, from + 1);
      var r := [(CamelKey(k), SnakeToCamel(x))] + rest;
      assert forall i :: 1 <= i < |r| ==> r[i] == rest[i - 1];
      r
  }

  /** Arrays keep their length and order; each element is converted. */
  lemma ArrayElementwise(items: seq<Value>)
    ensures SnakeToCamel(Arr(items)).Arr?
    ensures |SnakeToCamel(Arr(items)).items| == |items|
    ensures forall i :: 0 <= i < |items| ==> SnakeToCamel(Arr(items)).items[i] == SnakeToCamel(items[i])
  {
    assert SnakeToCamel(Arr(items)).items == ConvertItems(Arr(items), 0);
  }

  /** The keys of a converted plain object are exactly the rewritten input
      keys, so the result is plain again; any other object comes back as it
      is. */
  lemma ObjectKeys(entries: seq<(string, Value)>)
    ensures SnakeToCamel(Obj(entries)).Obj?
    ensures PlainObject(Obj(entries)) ==>
      KeySet(SnakeToCamel(Obj(entries)).entries) == set k | k in KeySet(entries) :: CamelKey(k)
    ensures PlainObject(Obj(entries)) ==> PlainObject(SnakeToCamel(Obj(entries)))
    ensures !PlainObject(Obj(entries)) ==> SnakeToCamel(Obj(entries)) == Obj(entries)
  {
    if PlainObject(Obj(entries)) {
      assert SnakeToCamel(Obj(entries)).entries == FromEntries(ConvertEntries(Obj(entries), 0));
      RenamedKeys(entries);
      forall k | k in KeySet(entries)
        ensures CamelKey(k) != "constructor"
      {
        CamelKeyConstructor(k);
      }
    }
  }

  /** The keys of the converted entries, before duplicates merge. */
  lemma RenamedKeys(entries: seq<(string, Value)>)
    ensures KeySet(ConvertEntries(Obj(entries), 0)) == set k | k in KeySet(entries) :: CamelKey(k)
  {
    var renamed := ConvertEntries(Obj(entries), 0);
    forall k | k in KeySet(renamed)
      ensures k in set k | k in KeySet(entries) :: CamelKey(k)
    {
      var i :| 0 <= i < |renamed| && renamed[i].0 == k;
      assert entries[i].0 in KeySet(entries);
    }
    forall k | k in KeySet(entries)
      ensures CamelKey(k) in KeySet(renamed)
    {
      var i :| 0 <= i < |entries| && entries[i].0 == k;
      assert renamed[i].0 == CamelKey(k);
    }
  }

  /** Each entry of a converted plain object is some input entry with its
      key rewritten and its value converted. */
  lemma ObjectEntriesFromInput(entries: seq<(string, Value)>)
    ensures SnakeToCamel(Obj(entries)).Obj?
    ensures PlainObject(Obj(entries)) ==> forall e :: e in SnakeToCamel(Obj(entries)).entries ==>
      exists j :: 0 <= j < |entries| && e == (CamelKey(entries[j].0), SnakeToCamel(entries[j].1))
  {
    var renamed := ConvertEntries(Obj(entries), 0);
    if PlainObject(Obj(entries)) {
      assert SnakeToCamel(Obj(entries)).entries == FromEntries(renamed);
      forall e | e in FromEntries(renamed)
        ensures exists j :: 0 <= j < |entries| && e == (CamelKey(entries[j].0), SnakeToCamel(entries[j].1))
      {
        var j :| 0 <= j < |renamed| && renamed[j] == e;
        assert e == (CamelKey(entries[j].0), SnakeToCamel(entries[j].1));
      }
    }
  }

  /** Converting an already converted value changes nothing. */
  lemma {:induction false} SnakeToCamelIdempotent(v: Value)
    ensures SnakeToCamel(SnakeToCamel(v)) == SnakeToCamel(v)
    decreases v, 1
  {
    match v
    case Arr(_) => ItemsIdempotent(v);
    case Obj(_) => EntriesIdempotent(v);
    case _ =>
  }

  lemma {:induction false} ItemsIdempotent(v: Value)
    requires v.Arr?
    ensures SnakeToCamel(SnakeToCamel(v)) == SnakeToCamel(v)
    decreases v, 0
  {
    var once := ConvertItems(v, 0);
    assert SnakeToCamel(v) == Arr(once);
    var twice := ConvertItems(Arr(once), 0);
    assert SnakeToCamel(Arr(once)) == Arr(twice);
    forall i | 0 <= i < |once|
      ensures twice[i] == once[i]
    {
      SnakeToCamelIdempotent(v.items[i]);
    }
    assert twice == once;
  }

  lemma {:induction false} EntriesIdempotent(v: Value)
    requires v.Obj?
    ensures SnakeToCamel(SnakeToCamel(v)) == SnakeToCamel(v)
    decreases v, 0
  {
    ObjectKeys(v.entries);
    if PlainObject(v) {
      var d := SnakeToCamel(v).entries;
      ObjectEntriesFromInput(v.entries);
      forall i | 0 <= i < |d|
        ensures (CamelKey(d[i].0), SnakeToCamel(d[i].1)) == d[i]
      {
        assert d[i] in d;
        var j :| 0 <= j < |v.entries| && d[i] == (CamelKey(v.entries[j].0), SnakeToCamel(v.entries[j].1));
        SnakeToCamelIdempotent(v.entries[j].1);
        CamelKeyFixpoint(v.entries[j].0);
      }
      var again := ConvertEntries(Obj(d), 0);
      assert again == d;
      assert SnakeToCamel(Obj(d)).entries == FromEntries(again);
    }
  }

  /** Keys that collide after the rewrite merge into one entry, which
      carries the converted value of the last of them: for any entry `j` of
      a plain object that no later entry collides with, its rewritten key
      reads back its converted value. */
  lemma CollidingKeysKeepLaterValue(entries: seq<(string, Value)>, j: int)
    requires 0 <= j < |entries|
    requires forall i :: j < i < |entries| ==> CamelKey(entries[i].0) != CamelKey(entries[j].0)
    ensures PlainObject(Obj(entries)) ==>
      Lookup(SnakeToCamel(Obj(entries)).entries, CamelKey(entries[j].0)) == SnakeToCamel(entries[j].1)
  {
    var renamed := ConvertEntries(Obj(entries), 0);
    LookupLastEntry(renamed, j);
  }
}

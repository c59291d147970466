/** JSON values as Python's `json` module produces and consumes them, and
    `json.dumps` with its default settings (`ensure_ascii=True`, separators
    `", "` and `": "`). */
module PyJson {
  import opened Text
  import Counting

  datatype Json =
    | JNull
    | JBool(b: bool)
    | JInt(i: int)
    | JStr(s: string)
    | JArr(items: seq<Json>)
    | JObj(fields: seq<(string, Json)>)

  /** Python truthiness of the decoded value (`if value:`). */
  predicate Truthy(j: Json)
  {
    match j
    case JNull => false
    case JBool(b) => b
    case JInt(i) => i != 0
    case JStr(s) => s != []
    case JArr(items) => items != []
    case JObj(fields) => fields != []
  }

  // ---------------------------------------------------------------- equality

  /** Whether a value is a Python `int` (a `bool` is one). */
  predicate IsInt(j: Json)
  {
    j.JInt? || j.JBool?
  }

  function NumberOf(j: Json): int
    requires IsInt(j)
  {
    match j
    case JInt(i) => i
    case JBool(b) => if b then 1 else 0
  }

  /** Field `i` is the last one with its key: the entry a decoded dict keeps. */
  predicate LastOfKey(fields: seq<(string, Json)>, i: int)
  {
    0 <= i < |fields| && forall k :: i < k < |fields| ==> fields[k].0 != fields[i].0
  }

  function KeySet(fields: seq<(string, Json)>): set<string>
  {
    set i | 0 <= i < |fields| :: fields[i].0
  }

  /** Python `==` on decoded values: `True == 1` and `False == 0`, lists
      are equal element by element, dicts when they have the same keys and
      equal values under each key, whatever the order of their entries;
      other values are equal when they are the same value. */
  predicate PyEq(a: Json, b: Json)
    decreases a
  {
    if IsInt(a) && IsInt(b) then NumberOf(a) == NumberOf(b)
    else if a.JArr? then
      b.JArr? && |a.items| == |b.items| && forall i :: 0 <= i < |a.items| ==> PyEq(a.items[i], b.items[i])
    else if a.JObj? then
      b.JObj? && KeySet(a.fields) == KeySet(b.fields)
      && forall i, j ::
           (0 <= i < |a.fields| && 0 <= j < |b.fields| && LastOfKey(a.fields, i) && LastOfKey(b.fields, j)
            && a.fields[i].0 == b.fields[j].0) ==> PyEq(a.fields[i].1, b.fields[j].1)
    else a == b
  }

  /** Only one entry of a key is its last. */
  lemma LastOfKeyUnique(fields: seq<(string, Json)>, i: int, j: int)
    requires LastOfKey(fields, i) && LastOfKey(fields, j) && fields[i].0 == fields[j].0
    ensures i == j
  {
    assert !(i < j);
    assert !(j < i);
  }

  /** A last field before the final one stays last once the final field
      is dropped, and has a different key. */
  lemma LastOfKeyInit(fields: seq<(string, Json)>, i: int)
    requires LastOfKey(fields, i) && i < |fields| - 1
    ensures LastOfKey(fields[..|fields| - 1], i) && fields[i].0 != fields[|fields| - 1].0
  {
    var init := fields[..|fields| - 1];
    forall k | i < k < |init| ensures init[k].0 != init[i].0 {
      assert init[k] == fields[k];
    }
  }

  lemma {:induction false} PyEqReflexive(a: Json)
    ensures PyEq(a, a)
    decreases a
  {
    match a
    case JArr(xs) =>
      forall i | 0 <= i < |xs| ensures PyEq(xs[i], xs[i]) {
        PyEqReflexive(xs[i]);
      }
    case JObj(fs) =>
      forall i, j | 0 <= i < |fs| && 0 <= j < |fs| && LastOfKey(fs, i) && LastOfKey(fs, j) && fs[i].0 == fs[j].0
        ensures PyEq(fs[i].1, fs[j].1)
      {
        LastOfKeyUnique(fs, i, j);
        PyEqReflexive(fs[i].1);
      }
    case _ =>
  }

  lemma {:induction false} PyEqSymmetric(a: Json, b: Json)
    requires PyEq(a, b)
    ensures PyEq(b, a)
    decreases a
  {
    match a
    case JArr(xs) =>
      forall i | 0 <= i < |xs| ensures PyEq(b.items[i], xs[i]) {
        PyEqSymmetric(xs[i], b.items[i]);
      }
    case JObj(fs) =>
      forall j, i | 0 <= j < |b.fields| && 0 <= i < |fs| && LastOfKey(b.fields, j) && LastOfKey(fs, i)
                    && b.fields[j].0 == fs[i].0
        ensures PyEq(b.fields[j].1, fs[i].1)
      {
        PyEqSymmetric(fs[i].1, b.fields[j].1);
      }
    case _ =>
  }

  // ---------------------------------------------------------------- the decoded dict

  function FieldKeys(fields: seq<(string, Json)>): seq<string>
  {
    seq(|fields|, i requires 0 <= i < |fields| => fields[i].0)
  }

  /** Appending a field appends its key. */
  lemma FieldKeysSnoc(fields: seq<(string, Json)>)
    requires fields != []
    ensures FieldKeys(fields) == FieldKeys(fields[..|fields| - 1]) + [fields[|fields| - 1].0]
  {
    var init := fields[..|fields| - 1];
    forall i | 0 <= i < |init| ensures FieldKeys(fields)[i] == FieldKeys(init)[i] {
      assert init[i] == fields[i];
    }
  }

  /** The index of the last field with a key that occurs. */
  function LastIndex(fields: seq<(string, Json)>, key: string): (i: int)
    requires key in FieldKeys(fields)
    ensures LastOfKey(fields, i) && fields[i].0 == key
  {
    var n := |fields| - 1;
    if fields[n].0 == key then n
    else
      FieldKeysSnoc(fields);
      var i := LastIndex(fields[..n], key);
      assert fields[i] == fields[..n][i];
      i
  }

  /** The items of the dict `json.loads` builds from an object's fields,
      where `d[key] = value` runs for each field in turn: every key once,
      at the place of its first field, with the value of its last. */
  function Items(fields: seq<(string, Json)>): (d: seq<(string, Json)>)
    ensures forall k :: 0 <= k < |d| ==> d[k] in fields
  {
    var ks := Counting.FirstSeen(FieldKeys(fields));
    Counting.FirstSeenElems(FieldKeys(fields));
    seq(|ks|, k requires 0 <= k < |ks| => fields[LastIndex(fields, ks[k])])
  }

  /** Each item is the last field of its key, and the items list the keys
      in order of their first field. */
  lemma ItemsOfFields(fields: seq<(string, Json)>)
    ensures FieldKeys(Items(fields)) == Counting.FirstSeen(FieldKeys(fields))
    ensures forall k :: 0 <= k < |Items(fields)| ==>
      Items(fields)[k].0 in FieldKeys(fields) && Items(fields)[k] == fields[LastIndex(fields, Items(fields)[k].0)]
  {
    Counting.FirstSeenElems(FieldKeys(fields));
    assert FieldKeys(Items(fields)) == Counting.FirstSeen(FieldKeys(fields));
  }

  /** The last field of each key is an item of the dict. */
  lemma ItemsHoldLast(fields: seq<(string, Json)>, i: int)
    requires LastOfKey(fields, i)
    ensures fields[i] in Items(fields)
  {
    var d := Items(fields);
    ItemsOfFields(fields);
    assert FieldKeys(fields)[i] == fields[i].0;
    Counting.FirstSeenElems(FieldKeys(fields));
    assert fields[i].0 in FieldKeys(d);
    var k :| 0 <= k < |d| && FieldKeys(d)[k] == fields[i].0;
    LastOfKeyUnique(fields, i, LastIndex(fields, fields[i].0));
  }

  /** The dict's items are exactly the last fields of their keys, each key
      listed once, in order of its first field. */
  lemma ItemsAreLastFields(fields: seq<(string, Json)>)
    ensures Counting.Distinct(FieldKeys(Items(fields)))
    ensures forall e :: e in Items(fields) <==> exists i :: LastOfKey(fields, i) && e == fields[i]
  {
    Counting.FirstSeenElems(FieldKeys(fields));
    ItemsOfFields(fields);
    forall i | LastOfKey(fields, i) ensures fields[i] in Items(fields) {
      ItemsHoldLast(fields, i);
    }
  }

  /** `d[key] = v` on a dict held as its items: a key already present keeps
      its place and takes the new value, a new key goes to the end. */
  function Store(d: seq<(string, Json)>, key: string, v: Json): seq<(string, Json)>
  {
    if key in FieldKeys(d) then seq(|d|, i requires 0 <= i < |d| => if d[i].0 == key then (key, v) else d[i])
    else d + [(key, v)]
  }

  /** The dict built by storing every field in turn, as the decoder does. */
  function StoreAll(fields: seq<(string, Json)>): seq<(string, Json)>
  {
    if fields == [] then []
    else Store(StoreAll(fields[..|fields| - 1]), fields[|fields| - 1].0, fields[|fields| - 1].1)
  }

  /** What one store does to the key list and to each item. */
  lemma StoreFacts(d: seq<(string, Json)>, key: string, v: Json)
    ensures FieldKeys(Store(d, key, v)) == if key in FieldKeys(d) then FieldKeys(d) else FieldKeys(d) + [key]
    ensures forall k :: 0 <= k < |Store(d, key, v)| ==>
      Store(d, key, v)[k] == if Store(d, key, v)[k].0 == key then (key, v) else d[k]
  {
    if key !in FieldKeys(d) {
      assert FieldKeys(Store(d, key, v)) == FieldKeys(d) + [key];
      forall k | 0 <= k < |d| ensures d[k].0 != key {
        assert FieldKeys(d)[k] == d[k].0;
      }
    } else {
      assert FieldKeys(Store(d, key, v)) == FieldKeys(d);
    }
  }

  /** A last field stays last when a field with another key is appended. */
  lemma LastOfKeyExtend(fields: seq<(string, Json)>, j: int)
    requires fields != [] && LastOfKey(fields[..|fields| - 1], j) && fields[j].0 != fields[|fields| - 1].0
    ensures LastOfKey(fields, j)
  {
    var init := fields[..|fields| - 1];
    forall m | j < m < |fields| - 1 ensures fields[m].0 != fields[j].0 {
      assert init[m] == fields[m];
    }
  }

  /** Storing every field in turn lists the keys in order of their first
      field. */
  lemma {:induction false} StoreAllKeys(fields: seq<(string, Json)>)
    ensures FieldKeys(StoreAll(fields)) == Counting.FirstSeen(FieldKeys(fields))
  {
    if fields != [] {
      var n := |fields| - 1;
      var init := fields[..n];
      StoreAllKeys(init);
      StoreFacts(StoreAll(init), fields[n].0, fields[n].1);
      FieldKeysSnoc(fields);
    }
  }

  /** Every item of `d` is the last field of its key among `fields`. */
  predicate LastItems(d: seq<(string, Json)>, fields: seq<(string, Json)>)
  {
    forall p :: 0 <= p < |d| ==> d[p].0 in FieldKeys(fields) && d[p] == fields[LastIndex(fields, d[p].0)]
  }

  /** An item the final store leaves alone: it is still the last field of
      its key once that field is followed by one with another key. */
  lemma StoreAllKept(fields: seq<(string, Json)>, e: (string, Json))
    requires fields != [] && e.0 != fields[|fields| - 1].0
    requires e.0 in FieldKeys(fields[..|fields| - 1])
    requires e == fields[..|fields| - 1][LastIndex(fields[..|fields| - 1], e.0)]
    ensures e.0 in FieldKeys(fields) && e == fields[LastIndex(fields, e.0)]
  {
    var n := |fields| - 1;
    var init := fields[..n];
    var j := LastIndex(init, e.0);
    FieldKeysSnoc(fields);
    assert init[j] == fields[j];
    LastOfKeyExtend(fields, j);
    LastOfKeyUnique(fields, j, LastIndex(fields, e.0));
  }

  /** Storing every field in turn leaves each key with the value of its
      last field. */
  lemma {:induction false} StoreAllLast(fields: seq<(string, Json)>)
    ensures LastItems(StoreAll(fields), fields)
  {
    if fields != [] {
      var n := |fields| - 1;
      var init := fields[..n];
      var prev := StoreAll(init);
      var d := StoreAll(fields);
      StoreAllLast(init);
      StoreFacts(prev, fields[n].0, fields[n].1);
      FieldKeysSnoc(fields);
      forall k | 0 <= k < |d|
        ensures d[k].0 in FieldKeys(fields) && d[k] == fields[LastIndex(fields, d[k].0)]
      {
        if d[k].0 == fields[n].0 {
          LastOfKeyUnique(fields, n, LastIndex(fields, d[k].0));
        } else {
          StoreAllKept(fields, d[k]);
        }
      }
    }
  }

  /** The dict view is the dict the decoder builds by storing each field in
      turn. */
  lemma ItemsByStoring(fields: seq<(string, Json)>)
    ensures Items(fields) == StoreAll(fields)
  {
    ItemsOfFields(fields);
    StoreAllKeys(fields);
    StoreAllLast(fields);
    var a := Items(fields);
    var b := StoreAll(fields);
    assert |a| == |FieldKeys(a)| == |FieldKeys(b)| == |b|;
    forall k | 0 <= k < |a| ensures a[k] == b[k] {
      assert FieldKeys(a)[k] == FieldKeys(b)[k];
    }
  }

  /** A key is in the key set exactly when it is in the key list. */
  lemma KeySetOfKeys(fields: seq<(string, Json)>)
    ensures forall key :: key in KeySet(fields) <==> key in FieldKeys(fields)
  {
    forall key | key in FieldKeys(fields) ensures key in KeySet(fields) {
      var p :| 0 <= p < |fields| && FieldKeys(fields)[p] == key;
    }
    forall key | key in KeySet(fields) ensures key in FieldKeys(fields) {
      var p :| 0 <= p < |fields| && fields[p].0 == key;
      assert FieldKeys(fields)[p] == key;
    }
  }

  /** The dict has a key exactly when some field has it. */
  lemma ItemsKeySet(fields: seq<(string, Json)>)
    ensures KeySet(Items(fields)) == KeySet(fields)
  {
    KeySetOfKeys(fields);
    KeySetOfKeys(Items(fields));
    ItemsOfFields(fields);
    Counting.FirstSeenElems(FieldKeys(fields));
  }

  /** An object and its dict's items are the same dict under Python `==`. */
  lemma ItemsPyEq(fields: seq<(string, Json)>)
    ensures PyEq(JObj(fields), JObj(Items(fields)))
  {
    var d := Items(fields);
    ItemsAreLastFields(fields);
    ItemsKeySet(fields);
    forall i, j | 0 <= i < |fields| && 0 <= j < |d| && LastOfKey(fields, i) && LastOfKey(d, j) && fields[i].0 == d[j].0
      ensures PyEq(fields[i].1, d[j].1)
    {
      var q :| 0 <= q < |d| && d[q] == fields[i];
      assert FieldKeys(d)[q] == FieldKeys(d)[j];
      PyEqReflexive(fields[i].1);
    }
  }

  lemma KeySetEmpty(fields: seq<(string, Json)>)
    ensures fields == [] <==> KeySet(fields) == {}
  {
    if fields != [] {
      assert fields[0].0 in KeySet(fields);
    }
  }

  /** Values Python finds equal are equally truthy. */
  lemma PyEqTruthy(a: Json, b: Json)
    requires PyEq(a, b)
    ensures Truthy(a) == Truthy(b)
  {
    if a.JObj? {
      KeySetEmpty(a.fields);
      KeySetEmpty(b.fields);
    }
  }

  // ---------------------------------------------------------------- dumps

  predicate IsPrintableAscii(c: char) { ' ' <= c <= '~' }

  predicate PrintableAscii(s: string)
  {
    forall i :: 0 <= i < |s| ==> IsPrintableAscii(s[i])
  }

  function HexDigit(d: nat): (c: char)
    requires d < 16
    ensures IsPrintableAscii(c)
  {
    if d < 10 then ('0' as int + d) as char else ('a' as int + d - 10) as char
  }

  /** `\uXXXX` with four lower-case hex digits. */
  function UnicodeEscape(u: nat): (r: string)
    requires u < 0x1_0000
    ensures PrintableAscii(r)
  {
    ['\\', 'u', HexDigit(u / 0x1000), HexDigit(u / 0x100 % 16), HexDigit(u / 0x10 % 16), HexDigit(u % 16)]
  }

  /** How `json.dumps` writes one character inside a string literal. */
  function EscapeChar(c: char): (r: string)
    ensures PrintableAscii(r)
  {
    if c == '"' then "\\\""
    else if c == '\\' then "\\\\"
    else if c == '\n' then "\\n"
    else if c == '\r' then "\\r"
    else if c == '\t' then "\\t"
    else if c == '\U{8}' then "\\b"
    else if c == '\U{C}' then "\\f"
    else if IsPrintableAscii(c) then [c]
    else if (c as int) < 0x1_0000 then UnicodeEscape(c as int)
    else
      // outside the Basic Multilingual Plane: a UTF-16 surrogate pair
      var v := c as int - 0x1_0000;
      UnicodeEscape(0xD800 + v / 0x400) + UnicodeEscape(0xDC00 + v % 0x400)
  }

  function EscapeString(s: string): (r: string)
    ensures PrintableAscii(r)
  {
    if s == [] then [] else EscapeChar(s[0]) + EscapeString(s[1..])
  }

  function Quote(s: string): (r: string)
    ensures PrintableAscii(r)
  {
    "\"" + EscapeString(s) + "\""
  }

  /** `json.dumps(j)`: an object is written as the dict it decodes to. */
  function Dumps(j: Json): string
    decreases j, 1
  {
    match j
    case JNull => "null"
    case JBool(b) => if b then "true" else "false"
    case JInt(i) => IntToString(i)
    case JStr(s) => Quote(s)
    case JArr(items) => "[" + DumpsItems(j, items) + "]"
    case JObj(fields) => "{" + DumpsFields(j, Items(fields)) + "}"
  }

  function DumpsItems(parent: Json, items: seq<Json>): string
    requires forall k :: 0 <= k < |items| ==> items[k] < parent
    decreases parent, 0, |items|
  {
    if items == [] then []
    else if |items| == 1 then Dumps(items[0])
    else Dumps(items[0]) + ", " + DumpsItems(parent, items[1..])
  }

  function DumpsFields(parent: Json, fields: seq<(string, Json)>): string
    requires forall k :: 0 <= k < |fields| ==> fields[k].1 < parent
    decreases parent, 0, |fields|
  {
    if fields == [] then []
    else
      var entry := Quote(fields[0].0) + ": " + Dumps(fields[0].1);
      if |fields| == 1 then entry else entry + ", " + DumpsFields(parent, fields[1..])
  }

  lemma PrintableAsciiConcat(a: string, b: string)
    requires PrintableAscii(a) && PrintableAscii(b)
    ensures PrintableAscii(a + b)
  {
  }

  lemma {:induction false} IntToStringPrintable(i: int)
    ensures PrintableAscii(IntToString(i))
  {
  }

  /** The text `json.dumps` produces is printable ASCII: every non-ASCII or
      control character, newlines included, is escaped, so a dumped mapping
      always stays on one line. */
  lemma {:induction false} DumpsPrintable(j: Json)
    ensures PrintableAscii(Dumps(j))
    decreases j, 1
  {
    match j
    case JNull =>
    case JBool(b) =>
    case JInt(i) => IntToStringPrintable(i);
    case JStr(s) =>
    case JArr(items) =>
      DumpsItemsPrintable(j, items);
    case JObj(fields) =>
      DumpsFieldsPrintable(j, Items(fields));
  }

  lemma {:induction false} DumpsItemsPrintable(parent: Json, items: seq<Json>)
    requires forall k :: 0 <= k < |items| ==> items[k] < parent
    ensures PrintableAscii(DumpsItems(parent, items))
    decreases parent, 0, |items|
  {
    if items != [] {
      DumpsPrintable(items[0]);
      if |items| > 1 {
        DumpsItemsPrintable(parent, items[1..]);
      }
    }
  }

  lemma {:induction false} DumpsFieldsPrintable(parent: Json, fields: seq<(string, Json)>)
    requires forall k :: 0 <= k < |fields| ==> fields[k].1 < parent
    ensures PrintableAscii(DumpsFields(parent, fields))
    decreases parent, 0, |fields|
  {
    if fields != [] {
      DumpsPrintable(fields[0].1);
      if |fields| > 1 {
        DumpsFieldsPrintable(parent, fields[1..]);
      }
    }
  }
}

/** `PrivacyAggregator.aggregate`: from a student profile, its support
    entries and its tracking logs, the teacher-safe summary (first name,
    category counts, theme labels, UDL/POUR label lists, active count,
    effectiveness summary) and the confidential context block for the AI
    coach. */
module Aggregator {
  import opened Py
  import opened Text
  import opened Order
  import opened Counting
  import opened PyJson
  import opened Themes

  // ---------------------------------------------------------------- data

  /** A Python value found where text is expected: a `str`, or any other
      value, held as the text `str()` gives for it. */
  datatype PyVal = PyStr(s: string) | PyOther(shown: string)

  /** One element of a profile list (strengths, history, hopes,
      stakeholders): a dict, of which only its "text" entry matters, or any
      other value, held as its `str()` text (a `str` is its own text). */
  datatype Item = Bare(shown: string) | Dict(text: Option<PyVal>)

  /** A student profile; a list column that is null counts as empty. */
  datatype Profile = Profile(
    name: string,
    strengths: seq<Item>,
    history: seq<Item>,
    hopes: seq<Item>,
    stakeholders: seq<Item>)

  /** An effectiveness rating: its value and the text `str()` gives for it. */
  datatype Rating = Rating(value: real, shown: string)

  /** A support entry; the UDL and POUR mappings are the raw text columns. */
  datatype Support = Support(
    category: string,
    subcategory: Option<string>,
    description: string,
    udlMapping: Option<string>,
    pourMapping: Option<string>,
    status: string,
    rating: Option<Rating>)

  datatype Log = Log(role: string, implNotes: Option<string>, outcomeNotes: Option<string>)

  /** The teacher-safe tier; dicts are held as their items in insertion order. */
  datatype TeacherSafe = TeacherSafe(
    firstName: string,
    supportCategories: seq<string>,
    categoryCounts: seq<(string, nat)>,
    strengthThemes: seq<string>,
    goalThemes: seq<string>,
    activeSupportCount: nat,
    udlPrinciples: seq<Json>,
    pourPrinciples: seq<Json>,
    effectivenessSummary: seq<(string, real)>)

  datatype Tiers = Tiers(teacherSafe: TeacherSafe, fullContextForAi: string)

  /** `json.loads` on one string: the decoded value, or None when it raises. */
  type Loads = string -> Option<Json>

  // ---------------------------------------------------------------- helpers of the source

  /** `_extract_text`: the "text" entry of a dict (a KeyError when there is
      none), the item itself otherwise. */
  function ExtractText(item: Item): (r: Result<PyVal>)
    ensures r.Err? <==> item.Dict? && item.text.None?
    ensures r.Err? ==> r.error == KeyError
    ensures item.Bare? ==> r == Ok(PyStr(item.shown))
    ensures item.Dict? && item.text.Some? ==> r == Ok(item.text.value)
  {
    match item
    case Bare(s) => Ok(PyStr(s))
    case Dict(text) => if text.Some? then Ok(text.value) else Err(KeyError)
  }

  /** How an f-string shows the value. */
  function Shown(v: PyVal): string
  {
    match v
    case PyStr(s) => s
    case PyOther(t) => t
  }

  /** `_parse_json_field` on a text column: the decoded value, or an empty
      object when the column is null or does not decode. */
  function ParseJsonField(raw: Option<string>, loads: Loads): (r: Json)
    ensures r != JObj([]) ==> raw.Some? && loads(raw.value) == Some(r)
    ensures raw.None? ==> r == JObj([])
    ensures raw.Some? && loads(raw.value).Some? ==> r == loads(raw.value).value
    ensures raw.Some? && loads(raw.value).None? ==> r == JObj([])
  {
    match raw
    case None => JObj([])
    case Some(text) =>
      match loads(text)
      case None => JObj([])
      case Some(j) => j
  }

  /** `_generalise(_extract_text(item), table)`; `re.search` raises a
      TypeError when the extracted value is not a `str`. */
  function GeneraliseItem(item: Item, table: seq<Entry>): (r: Result<string>)
  {
    match ExtractText(item)
    case Err(e) => Err(e)
    case Ok(PyStr(s)) => Ok(Generalise(s, table))
    case Ok(PyOther(_)) => Err(TypeError)
  }

  /** The theme of every item in input order, or the first exception. */
  function ThemesOf(items: seq<Item>, table: seq<Entry>): (r: Result<seq<string>>)
    ensures r.Ok? ==> |r.value| == |items|
    ensures r.Ok? ==> forall i :: 0 <= i < |items| ==> GeneraliseItem(items[i], table) == Ok(r.value[i])
  {
    if items == [] then Ok([])
    else
      match ThemesOf(items[..|items| - 1], table)
      case Err(e) => Err(e)
      case Ok(ts) =>
        match GeneraliseItem(items[|items| - 1], table)
        case Err(e) => Err(e)
        case Ok(t) =>
          ThemesSnoc(items, table, ts, t);
          Ok(ts + [t])
  }

  /** The themes of all items but the last, followed by the last one's. */
  lemma ThemesSnoc(items: seq<Item>, table: seq<Entry>, ts: seq<string>, t: string)
    requires items != [] && |ts| == |items| - 1
    requires forall i :: 0 <= i < |ts| ==> GeneraliseItem(items[..|items| - 1][i], table) == Ok(ts[i])
    requires GeneraliseItem(items[|items| - 1], table) == Ok(t)
    ensures forall i :: 0 <= i < |items| ==> GeneraliseItem(items[i], table) == Ok((ts + [t])[i])
  {
    forall i | 0 <= i < |items| ensures GeneraliseItem(items[i], table) == Ok((ts + [t])[i]) {
      if i < |ts| {
        assert items[..|items| - 1][i] == items[i];
      }
    }
  }

  // ---------------------------------------------------------------- UDL / POUR labels

  /** Whether Python can put the value in a set. */
  predicate Hashable(j: Json)
  {
    !j.JArr? && !j.JObj?
  }

  /** What one mapping value adds to a label set: the elements of a list
      (`update`, a TypeError on an unhashable element), a string itself
      (`add`), and nothing otherwise. */
  function ValueLabels(v: Json): (r: Result<seq<Json>>)
    ensures r.Err? <==> v.JArr? && exists x :: x in v.items && !Hashable(x)
    ensures r.Err? ==> r.error == TypeError
    ensures r.Ok? ==> forall x :: x in r.value <==> (v.JStr? && x == v) || (v.JArr? && x in v.items)
  {
    match v
    case JArr(items) => if forall x :: x in items ==> Hashable(x) then Ok(items) else Err(TypeError)
    case JStr(_) => Ok([v])
    case _ => Ok([])
  }

  /** The labels of a dict's items, in item order, with each key added
      before its value's labels when `withKeys` holds. */
  function ItemLabels(items: seq<(string, Json)>, withKeys: bool): (r: Result<seq<Json>>)
    ensures r.Err? ==> r.error == TypeError
  {
    if items == [] then Ok([])
    else
      match ItemLabels(items[..|items| - 1], withKeys)
      case Err(e) => Err(e)
      case Ok(ls) =>
        var (k, v) := items[|items| - 1];
        match ValueLabels(v)
        case Err(e) => Err(e)
        case Ok(vs) => Ok(ls + (if withKeys then [JStr(k)] else []) + vs)
  }

  /** The labels of a decoded object, read as the loop over `.items()` of
      the dict it decodes to. */
  function FieldLabels(fields: seq<(string, Json)>, withKeys: bool): (r: Result<seq<Json>>)
    ensures r.Err? ==> r.error == TypeError
  {
    ItemLabels(Items(fields), withKeys)
  }

  /** The labels one UDL mapping contributes: only the values of a dict. */
  function UdlLabels(m: Json): (r: Result<seq<Json>>)
    ensures !m.JObj? ==> r == Ok([])
    ensures r.Err? ==> r.error == TypeError
  {
    if m.JObj? then FieldLabels(m.fields, false) else Ok([])
  }

  /** The labels one POUR mapping contributes: the keys and values of a dict. */
  function PourLabels(m: Json): (r: Result<seq<Json>>)
    ensures !m.JObj? ==> r == Ok([])
    ensures r.Err? ==> r.error == TypeError
  {
    if m.JObj? then FieldLabels(m.fields, true) else Ok([])
  }

  /** The UDL and POUR labels of all supports, in loop order, or the first
      exception. */
  function SupportLabels(supports: seq<Support>, loads: Loads): (r: Result<(seq<Json>, seq<Json>)>)
    ensures r.Err? ==> r.error == TypeError
  {
    if supports == [] then Ok(([], []))
    else
      match SupportLabels(supports[..|supports| - 1], loads)
      case Err(e) => Err(e)
      case Ok((udl, pour)) =>
        var s := supports[|supports| - 1];
        match UdlLabels(ParseJsonField(s.udlMapping, loads))
        case Err(e) => Err(e)
        case Ok(u) =>
          match PourLabels(ParseJsonField(s.pourMapping, loads))
          case Err(e) => Err(e)
          case Ok(p) => Ok((udl + u, pour + p))
  }

  predicate AllStrings(ls: seq<Json>)
  {
    forall x :: x in ls ==> x.JStr?
  }

  function Strings(ls: seq<Json>): (r: seq<string>)
    requires AllStrings(ls)
    ensures |r| == |ls| && forall i :: 0 <= i < |ls| ==> ls[i] == JStr(r[i])
  {
    assert forall i :: 0 <= i < |ls| ==> ls[i] in ls;
    seq(|ls|, i requires 0 <= i < |ls| => ls[i].s)
  }

  /** The labels as JSON strings, in the same order. */
  function StringLabels(ss: seq<string>): (r: seq<Json>)
    ensures |r| == |ss| && forall i :: 0 <= i < |ss| ==> r[i] == JStr(ss[i])
  {
    seq(|ss|, i requires 0 <= i < |ss| => JStr(ss[i]))
  }

  predicate AllNumbers(ls: seq<Json>)
  {
    forall x :: x in ls ==> IsInt(x)
  }

  predicate AllNone(ls: seq<Json>)
  {
    forall x :: x in ls ==> x == JNull
  }

  /** Python's `<` between two labels it can compare: strings by code
      point, `int`s and `bool`s by value. */
  predicate LabelLess(a: Json, b: Json)
  {
    || (a.JStr? && b.JStr? && Less(a.s, b.s))
    || (IsInt(a) && IsInt(b) && NumberOf(a) < NumberOf(b))
  }

  predicate LabelsAscending(s: seq<Json>)
  {
    forall i, j :: 0 <= i < j < |s| ==> LabelLess(s[i], s[j])
  }

  /** Python `==` between two labels, which are never lists or dicts:
      `True == 1`, `False == 0`, and otherwise the same value. */
  predicate LabelEq(a: Json, b: Json)
  {
    if IsInt(a) && IsInt(b) then NumberOf(a) == NumberOf(b) else a == b
  }

  /** On labels, `LabelEq` is Python's `==`. */
  lemma LabelEqIsPyEq(a: Json, b: Json)
    requires Hashable(a)
    ensures LabelEq(a, b) <==> PyEq(a, b)
  {
  }

  /** The position of the first label among `ls` equal to `x`, or `|ls|`
      when there is none. */
  function FirstEqualIndex(ls: seq<Json>, x: Json): (i: nat)
    ensures i <= |ls|
    ensures i < |ls| ==> LabelEq(ls[i], x)
    ensures forall j :: 0 <= j < i ==> !LabelEq(ls[j], x)
    ensures x in ls ==> i < |ls|
  {
    if ls == [] then 0
    else if LabelEq(ls[0], x) then 0
    else
      var i := 1 + FirstEqualIndex(ls[1..], x);
      assert forall j :: 1 <= j < i ==> ls[j] == ls[1..][j - 1];
      assert x in ls ==> ls[0] == x || x in ls[1..];
      i
  }

  /** The label a Python set holds for `y` after adding `ls` in order:
      `y` itself is the first of the labels equal to it. */
  predicate KeptFirst(ls: seq<Json>, y: Json)
  {
    FirstEqualIndex(ls, y) < |ls| && ls[FirstEqualIndex(ls, y)] == y
  }

  /** Equal labels have the same first equal label. */
  lemma {:induction false} FirstEqualIndexSame(ls: seq<Json>, a: Json, b: Json)
    requires LabelEq(a, b)
    ensures FirstEqualIndex(ls, a) == FirstEqualIndex(ls, b)
  {
    if ls != [] {
      assert LabelEq(ls[0], a) <==> LabelEq(ls[0], b);
      FirstEqualIndexSame(ls[1..], a, b);
    }
  }

  /** Appending a label leaves the first equal label where it was. */
  lemma {:induction false} FirstEqualIndexSnoc(ls: seq<Json>, x: Json, y: Json)
    requires FirstEqualIndex(ls, y) < |ls|
    ensures FirstEqualIndex(ls + [x], y) == FirstEqualIndex(ls, y)
  {
    if !LabelEq(ls[0], y) {
      assert (ls + [x])[1..] == ls[1..] + [x];
      FirstEqualIndexSnoc(ls[1..], x, y);
    }
  }

  /** The numeric values of the numbers among `s`. */
  ghost function Values(s: seq<Json>): set<int>
  {
    set x | x in s && IsInt(x) :: NumberOf(x)
  }

  /** Adding one number to a set of numbers held in ascending order: a
      number equal to one already held is not added. */
  function InsertNumber(s: seq<Json>, x: Json): (r: seq<Json>)
    requires IsInt(x) && AllNumbers(s) && LabelsAscending(s)
    ensures AllNumbers(r) && LabelsAscending(r)
    ensures forall y :: y in r <==> y in s || (y == x && NumberOf(x) !in Values(s))
    ensures Values(r) == Values(s) + {NumberOf(x)}
  {
    if s == [] then
      assert Values([x]) == {NumberOf(x)};
      [x]
    else if NumberOf(s[0]) == NumberOf(x) then
      assert s[0] in s;
      s
    else if NumberOf(x) < NumberOf(s[0]) then
      InsertBelow(s, x);
      [x] + s
    else
      var rest := InsertNumber(s[1..], x);
      InsertAbove(s, x, rest);
      [s[0]] + rest
  }

  lemma ValuesCons(y: Json, s: seq<Json>)
    ensures Values([y] + s) == Values([y]) + Values(s)
  {
    assert forall z :: z in [y] + s <==> z == y || z in s;
  }

  lemma AscendingCons(y: Json, s: seq<Json>)
    requires LabelsAscending(s) && forall z :: z in s ==> LabelLess(y, z)
    ensures LabelsAscending([y] + s)
  {
    var r := [y] + s;
    forall i, j | 0 <= i < j < |r| ensures LabelLess(r[i], r[j]) {
      assert r[j] == s[j - 1] && r[j] in s;
      if i > 0 {
        assert r[i] == s[i - 1];
      }
    }
  }

  /** A number below the least one held goes first. */
  lemma InsertBelow(s: seq<Json>, x: Json)
    requires IsInt(x) && AllNumbers(s) && LabelsAscending(s)
    requires s != [] && NumberOf(x) < NumberOf(s[0])
    ensures AllNumbers([x] + s) && LabelsAscending([x] + s)
    ensures forall y :: y in [x] + s <==> y in s || (y == x && NumberOf(x) !in Values(s))
    ensures Values([x] + s) == Values(s) + {NumberOf(x)}
  {
    forall k | 0 < k < |s| ensures NumberOf(s[0]) < NumberOf(s[k]) {
      assert LabelLess(s[0], s[k]);
    }
    AscendingCons(x, s);
    assert NumberOf(x) !in Values(s);
    ValuesCons(x, s);
    assert Values([x]) == {NumberOf(x)};
  }

  /** A number above the least one held goes after it. */
  lemma InsertAbove(s: seq<Json>, x: Json, rest: seq<Json>)
    requires IsInt(x) && AllNumbers(s) && LabelsAscending(s)
    requires s != [] && NumberOf(s[0]) < NumberOf(x)
    requires AllNumbers(rest) && LabelsAscending(rest)
    requires forall y :: y in rest <==> y in s[1..] || (y == x && NumberOf(x) !in Values(s[1..]))
    requires Values(rest) == Values(s[1..]) + {NumberOf(x)}
    ensures AllNumbers([s[0]] + rest) && LabelsAscending([s[0]] + rest)
    ensures forall y :: y in [s[0]] + rest <==> y in s || (y == x && NumberOf(x) !in Values(s))
    ensures Values([s[0]] + rest) == Values(s) + {NumberOf(x)}
  {
    forall y | y in rest ensures NumberOf(s[0]) < NumberOf(y) {
      if y != x {
        var k :| 0 <= k < |s[1..]| && s[1..][k] == y;
        assert LabelLess(s[0], s[k + 1]);
      }
    }
    var r := [s[0]] + rest;
    AscendingCons(s[0], rest);
    assert s == [s[0]] + s[1..];
    ValuesCons(s[0], s[1..]);
    ValuesCons(s[0], rest);
    assert Values([s[0]]) == {NumberOf(s[0])};
    assert NumberOf(x) in Values(s) <==> NumberOf(x) in Values(s[1..]);
    forall y ensures y in r <==> y in s || (y == x && NumberOf(x) !in Values(s)) {
      assert y in r <==> y == s[0] || y in rest;
      assert y in s <==> y == s[0] || y in s[1..];
    }
  }

  /** `sorted` of the set of the numbers `ls`, built by adding them in order. */
  function SortNumbers(ls: seq<Json>): (r: seq<Json>)
    requires AllNumbers(ls)
    ensures AllNumbers(r) && LabelsAscending(r)
    ensures Values(r) == Values(ls)
    ensures forall y :: y in r ==> y in ls
  {
    if ls == [] then []
    else
      var init := ls[..|ls| - 1];
      assert ls == init + [ls[|ls| - 1]];
      InsertNumber(SortNumbers(init), ls[|ls| - 1])
  }

  /** Every sorted number is the label kept first for its value. */
  lemma {:induction false} SortNumbersKeepsFirst(ls: seq<Json>)
    requires AllNumbers(ls)
    ensures forall y :: y in SortNumbers(ls) ==> KeptFirst(ls, y)
  {
    if ls != [] {
      var n := |ls| - 1;
      var init, x := ls[..n], ls[n];
      assert ls == init + [x];
      SortNumbersKeepsFirst(init);
      forall y | y in SortNumbers(ls) ensures KeptFirst(ls, y) {
        if y in SortNumbers(init) {
          KeptFirstExtend(init, x, y);
        } else {
          KeptFirstNew(init, x);
        }
      }
    }
  }

  lemma KeptFirstExtend(init: seq<Json>, x: Json, y: Json)
    requires KeptFirst(init, y)
    ensures KeptFirst(init + [x], y)
  {
    FirstEqualIndexSnoc(init, x, y);
  }

  lemma KeptFirstNew(init: seq<Json>, x: Json)
    requires AllNumbers(init) && IsInt(x) && NumberOf(x) !in Values(init)
    ensures KeptFirst(init + [x], x)
  {
    var ls := init + [x];
    forall j | 0 <= j < |init| ensures !LabelEq(ls[j], x) {
      assert ls[j] == init[j] && init[j] in init;
    }
    assert ls[|init|] == x;
  }

  /** The sorted string labels ascend and come from the labels. */
  lemma StringLabelsSorted(ls: seq<Json>)
    requires AllStrings(ls)
    ensures var r := StringLabels(SortedSet(Strings(ls)));
      LabelsAscending(r) && forall y :: y in r ==> y in ls
  {
    var ss := SortedSet(Strings(ls));
    var r := StringLabels(ss);
    forall y | y in r ensures y in ls {
      var i :| 0 <= i < |r| && r[i] == y;
      assert ss[i] in Elems(ss);
      var k :| 0 <= k < |Strings(ls)| && Strings(ls)[k] == ss[i];
      assert ls[k] == y;
    }
  }

  /** `sorted(labels)` on the set of labels `ls` added in order. Python
      sorts strings among themselves and numbers among themselves; a single
      `None` needs no comparison; any other mixture makes a comparison raise
      a TypeError. */
  function SortLabels(ls: seq<Json>): (r: Result<seq<Json>>)
    ensures r.Ok? <==> AllStrings(ls) || AllNumbers(ls) || AllNone(ls)
    ensures r.Err? ==> r.error == TypeError
    ensures r.Ok? ==> LabelsAscending(r.value)
    ensures r.Ok? ==> forall y :: y in r.value ==> y in ls
  {
    if AllStrings(ls) then
      StringLabelsSorted(ls);
      Ok(StringLabels(SortedSet(Strings(ls))))
    else if AllNumbers(ls) then Ok(SortNumbers(ls))
    else if AllNone(ls) then Ok([JNull])
    else Err(TypeError)
  }

  /** Which labels `sorted` returns: for every label, the first label
      equal to it, which is the one the set kept (`True` rather than a
      later `1`); and a label exactly when it is kept first. */
  lemma SortLabelsKeepsFirst(ls: seq<Json>)
    requires SortLabels(ls).Ok?
    ensures forall x :: x in ls ==> ls[FirstEqualIndex(ls, x)] in SortLabels(ls).value
    ensures forall y :: y in SortLabels(ls).value <==> KeptFirst(ls, y)
  {
    var r := SortLabels(ls).value;
    if AllStrings(ls) {
      StringLabelsKeepFirst(ls);
    } else if AllNumbers(ls) {
      SortNumbersKeepsFirst(ls);
      NumbersRepresented(ls);
    } else {
      NoneKeptFirst(ls);
    }
    forall y | KeptFirst(ls, y) ensures y in r {
      assert y in ls;
    }
  }

  /** `sorted` on a list of numbers sorts them by value. */
  lemma SortLabelsNumbers()
    ensures SortLabels([JInt(2), JInt(1)]) == Ok([JInt(1), JInt(2)])
  {
    var ls := [JInt(2), JInt(1)];
    assert !AllStrings(ls) by { assert ls[0] in ls; }
    assert ls[..1] == [JInt(2)];
    assert SortNumbers([JInt(2)]) == [JInt(2)];
    assert InsertNumber([JInt(2)], JInt(1)) == [JInt(1)] + [JInt(2)];
    assert SortNumbers(ls) == InsertNumber(SortNumbers(ls[..1]), ls[1]);
    assert [JInt(1)] + [JInt(2)] == [JInt(1), JInt(2)];
  }

  /** A lone `None` is returned as it is. */
  lemma SortLabelsNone()
    ensures SortLabels([JNull]) == Ok([JNull])
  {
    assert !AllStrings([JNull]) by { assert JNull in [JNull]; }
  }

  /** `True` added before an equal `1` is the label kept. */
  lemma SortLabelsTrueBeforeOne()
    ensures SortLabels([JBool(true), JInt(1)]) == Ok([JBool(true)])
  {
    var ls := [JBool(true), JInt(1)];
    assert !AllStrings(ls) by { assert ls[0] in ls; }
    assert ls[..1] == [JBool(true)];
    assert SortNumbers([JBool(true)]) == [JBool(true)];
  }

  /** A string beside a number cannot be compared with it. */
  lemma SortLabelsMixed()
    ensures SortLabels([JStr("Engagement"), JInt(1)]) == Err(TypeError)
  {
    var ls := [JStr("Engagement"), JInt(1)];
    assert !AllStrings(ls) by { assert ls[1] in ls; }
    assert !AllNumbers(ls) && !AllNone(ls) by { assert ls[0] in ls; }
  }

  lemma NoneKeptFirst(ls: seq<Json>)
    requires AllNone(ls) && ls != []
    ensures forall x :: x in ls ==> ls[FirstEqualIndex(ls, x)] in [JNull]
    ensures KeptFirst(ls, JNull)
  {
    assert ls[0] in ls;
    forall x | x in ls ensures ls[FirstEqualIndex(ls, x)] in [JNull] {
      assert ls[FirstEqualIndex(ls, x)] in ls;
    }
  }

  lemma StringLabelsKeepFirst(ls: seq<Json>)
    requires AllStrings(ls)
    ensures var r := StringLabels(SortedSet(Strings(ls)));
      && (forall x :: x in ls ==> ls[FirstEqualIndex(ls, x)] in r)
      && (forall y :: y in r ==> KeptFirst(ls, y))
  {
    var t := Strings(ls);
    var ss := SortedSet(t);
    var r := StringLabels(ss);
    forall x | x in ls ensures ls[FirstEqualIndex(ls, x)] in r {
      var k :| 0 <= k < |ls| && ls[k] == x;
      assert t[k] in Elems(t);
      assert t[k] in Elems(ss);
      var i :| 0 <= i < |ss| && ss[i] == t[k];
      assert r[i] == x && r[i] in r;
      StringFirstEqual(ls, x);
    }
    StringLabelsSorted(ls);
    forall y | y in r ensures KeptFirst(ls, y) {
      StringFirstEqual(ls, y);
    }
  }

  /** Among strings the first label equal to one is itself. */
  lemma StringFirstEqual(ls: seq<Json>, y: Json)
    requires AllStrings(ls) && y in ls
    ensures ls[FirstEqualIndex(ls, y)] == y
  {
    assert ls[FirstEqualIndex(ls, y)] in ls;
  }

  lemma NumbersRepresented(ls: seq<Json>)
    requires AllNumbers(ls)
    requires forall y :: y in SortNumbers(ls) ==> KeptFirst(ls, y)
    ensures forall x :: x in ls ==> ls[FirstEqualIndex(ls, x)] in SortNumbers(ls)
  {
    var r := SortNumbers(ls);
    forall x | x in ls ensures ls[FirstEqualIndex(ls, x)] in r {
      assert NumberOf(x) in Values(ls);
      var y :| y in r && IsInt(y) && NumberOf(y) == NumberOf(x);
      FirstEqualIndexSame(ls, y, x);
    }
  }

  // ---------------------------------------------------------------- counts

  function Categories(supports: seq<Support>): (r: seq<string>)
    ensures |r| == |supports| && forall i :: 0 <= i < |supports| ==> r[i] == supports[i].category
  {
    seq(|supports|, i requires 0 <= i < |supports| => supports[i].category)
  }

  /** The categories of the supports that carry a rating, in order. */
  function RatedCategories(supports: seq<Support>): seq<string>
  {
    if supports == [] then []
    else
      var s := supports[|supports| - 1];
      RatedCategories(supports[..|supports| - 1]) + (if s.rating.Some? then [s.category] else [])
  }

  /** A category is among the rated ones exactly when some support of that
      category carries a rating. */
  lemma {:induction false} RatedCategoriesMembers(supports: seq<Support>)
    ensures forall c :: c in RatedCategories(supports) <==>
      exists i :: 0 <= i < |supports| && supports[i].category == c && supports[i].rating.Some?
  {
    if supports != [] {
      var init := supports[..|supports| - 1];
      RatedCategoriesMembers(init);
      assert forall i :: 0 <= i < |init| ==> init[i] == supports[i];
    }
  }

  /** The sum of the ratings of the rated supports of category `c`. */
  function RatingTotal(supports: seq<Support>, c: string): real
  {
    if supports == [] then 0.0
    else
      var s := supports[|supports| - 1];
      RatingTotal(supports[..|supports| - 1], c)
        + (if s.category == c && s.rating.Some? then s.rating.value.value else 0.0)
  }

  predicate IsActive(s: Support)
  {
    s.status == "active"
  }

  /** `sum(1 for s in supports if s.status == "active")`. */
  function ActiveCount(supports: seq<Support>): (r: nat)
    ensures r <= |supports|
    ensures r == |supports| <==> forall i :: 0 <= i < |supports| ==> IsActive(supports[i])
    ensures r == 0 <==> forall i :: 0 <= i < |supports| ==> !IsActive(supports[i])
  {
    if supports == [] then 0
    else
      var init := supports[..|supports| - 1];
      assert forall i :: 0 <= i < |init| ==> init[i] == supports[i];
      ActiveCount(init) + (if IsActive(supports[|supports| - 1]) then 1 else 0)
  }

  /** The positions of the active supports. */
  ghost function ActiveIndices(supports: seq<Support>): set<int>
  {
    set i | 0 <= i < |supports| && IsActive(supports[i])
  }

  /** The active count is the number of supports whose status is "active". */
  lemma {:induction false} ActiveCountIsNumberActive(supports: seq<Support>)
    ensures ActiveCount(supports) == |ActiveIndices(supports)|
  {
    if supports == [] {
      assert ActiveIndices(supports) == {};
    } else {
      var n := |supports| - 1;
      ActiveCountIsNumberActive(supports[..n]);
      ActiveIndicesSnoc(supports);
    }
  }

  lemma ActiveIndicesSnoc(supports: seq<Support>)
    requires supports != []
    ensures var n := |supports| - 1;
      && n !in ActiveIndices(supports[..n])
      && ActiveIndices(supports) == ActiveIndices(supports[..n]) + if IsActive(supports[n]) then {n} else {}
  {
    var n := |supports| - 1;
    var init := supports[..n];
    forall i ensures i in ActiveIndices(supports) <==> i in ActiveIndices(init) || (i == n && IsActive(supports[n])) {
      if 0 <= i < n {
        assert init[i] == supports[i];
      }
    }
  }

  /** The effectiveness summary before rounding: for each key of the count
      dict, in insertion order, the mean rating when the count is non-zero. */
  function SummaryOf(ratedCounts: seq<(string, nat)>, supports: seq<Support>): (r: seq<(string, real)>)
    ensures |r| <= |ratedCounts|
  {
    if ratedCounts == [] then []
    else
      var (c, n) := ratedCounts[|ratedCounts| - 1];
      SummaryOf(ratedCounts[..|ratedCounts| - 1], supports)
        + (if n > 0 then [(c, RatingTotal(supports, c) / (n as real))] else [])
  }

  function EffSummary(supports: seq<Support>): seq<(string, real)>
  {
    SummaryOf(Tally(RatedCategories(supports)), supports)
  }

  /** `profile.name.split()[0] if profile.name else "Student"`: an IndexError
      for a name made only of white space. */
  function FirstName(name: string): (r: Result<string>)
    ensures name == [] ==> r == Ok("Student")
    ensures r.Err? <==> name != [] && Words(name) == []
    ensures r.Ok? && name != [] ==> r.value != [] && NoSpace(r.value) && StartsWith(StripLeft(name), r.value)
    ensures r.Ok? && name != [] ==>
      var t := StripLeft(name); |r.value| == |t| || IsSpace(t[|r.value|])
    ensures r.Ok? && name != [] ==> r.value == Words(name)[0]
  {
    if name == [] then Ok("Student")
    else
      var ws := Words(name);
      if ws == [] then Err(IndexError)
      else
        var t := StripLeft(name);
        assert ws[0] == WordPrefix(t);
        Ok(ws[0])
  }

  // ---------------------------------------------------------------- teacher-safe tier

  /** The teacher-safe tier, or the first exception `aggregate` raises while
      building it. */
  function TeacherSafeOf(profile: Profile, supports: seq<Support>, loads: Loads): Result<TeacherSafe>
  {
    TeacherSafeWith(profile, supports, loads, StrengthTable(), GoalTable())
  }

  /** The teacher-safe tier over given strength and goal keyword tables. */
  function TeacherSafeWith(profile: Profile, supports: seq<Support>, loads: Loads,
                           strengthTable: seq<Entry>, goalTable: seq<Entry>): Result<TeacherSafe>
  {
    match SupportLabels(supports, loads)
    case Err(e) => Err(e)
    case Ok((udl, pour)) =>
      match ThemesOf(profile.strengths, strengthTable)
      case Err(e) => Err(e)
      case Ok(strengths) =>
        match ThemesOf(profile.hopes, goalTable)
        case Err(e) => Err(e)
        case Ok(goals) =>
          match FirstName(profile.name)
          case Err(e) => Err(e)
          case Ok(first) =>
            match SortLabels(udl)
            case Err(e) => Err(e)
            case Ok(u) =>
              match SortLabels(pour)
              case Err(e) => Err(e)
              case Ok(p) =>
                Ok(TeacherSafe(
                  first,
                  SortedSet(Categories(supports)),
                  Tally(Categories(supports)),
                  SortedSet(strengths),
                  SortedSet(goals),
                  ActiveCount(supports),
                  u,
                  p,
                  EffSummary(supports)))
  }

  // ---------------------------------------------------------------- context for the AI

  const Header := "=== CONFIDENTIAL STUDENT CONTEXT (DO NOT REVEAL TO TEACHER) ==="
  const StrengthsHeading := "\n-- Strengths --"
  const SupportsHeading := "\n-- Support Entries --"
  const HistoryHeading := "\n-- History --"
  const GoalsHeading := "\n-- Goals / Hopes --"
  const StakeholdersHeading := "\n-- Stakeholders --"
  const TrackingHeading := "\n-- Recent Tracking Logs --"
  const Footer := "\n=== END CONFIDENTIAL ==="

  /** The bulleted line of every item, or the first KeyError. */
  function ItemLines(items: seq<Item>): (r: Result<seq<string>>)
    ensures r.Ok? ==> |r.value| == |items|
    ensures r.Ok? ==> forall i :: 0 <= i < |items| ==> ExtractText(items[i]).Ok? && r.value[i] == "  - " + Shown(ExtractText(items[i]).value)
    ensures r.Err? <==> exists i :: 0 <= i < |items| && ExtractText(items[i]).Err?
  {
    if items == [] then Ok([])
    else
      var init := items[..|items| - 1];
      assert forall i :: 0 <= i < |init| ==> init[i] == items[i];
      match ItemLines(init)
      case Err(e) => Err(e)
      case Ok(ls) =>
        match ExtractText(items[|items| - 1])
        case Err(e) => Err(e)
        case Ok(v) => Ok(ls + ["  - " + Shown(v)])
  }

  /** `f" (effectiveness: {rating}/5)" if rating else ""`: a rating of zero
      is not shown. */
  function RatingText(rating: Option<Rating>): string
  {
    if rating.Some? && rating.value.value != 0.0 then " (effectiveness: " + rating.value.shown + "/5)" else ""
  }

  function SubcategoryText(sub: Option<string>): string
  {
    if sub.Some? && sub.value != [] then sub.value else "general"
  }

  /** The lines of one support entry: its summary line, then its UDL and its
      POUR mapping when they are truthy. */
  function EntryLines(s: Support, loads: Loads): (r: seq<string>)
    ensures 1 <= |r| <= 3
    ensures var udl := ParseJsonField(s.udlMapping, loads);
      var pour := ParseJsonField(s.pourMapping, loads);
      && |r| == 1 + (if Truthy(udl) then 1 else 0) + (if Truthy(pour) then 1 else 0)
      && r[0] == SummaryLine(s)
      && (Truthy(udl) ==> r[1] == "    UDL: " + Dumps(udl))
      && (Truthy(pour) ==> r[|r| - 1] == "    POUR: " + Dumps(pour))
  {
    var udl := ParseJsonField(s.udlMapping, loads);
    var pour := ParseJsonField(s.pourMapping, loads);
    [SummaryLine(s)]
      + (if Truthy(udl) then ["    UDL: " + Dumps(udl)] else [])
      + (if Truthy(pour) then ["    POUR: " + Dumps(pour)] else [])
  }

  /** The first line of a support entry. */
  function SummaryLine(s: Support): string
  {
    "  [" + s.category + "/" + SubcategoryText(s.subcategory) + "] " + s.description + RatingText(s.rating)
  }

  function SupportLines(supports: seq<Support>, loads: Loads): (r: seq<string>)
    ensures |supports| <= |r| <= 3 * |supports|
  {
    if supports == [] then []
    else SupportLines(supports[..|supports| - 1], loads) + EntryLines(supports[|supports| - 1], loads)
  }

  /** The lines of the supports are those of each support in turn: the
      lines of two runs of supports are the lines of the first followed by
      those of the second. */
  lemma {:induction false} SupportLinesAppend(a: seq<Support>, b: seq<Support>, loads: Loads)
    ensures SupportLines(a + b, loads) == SupportLines(a, loads) + SupportLines(b, loads)
  {
    if b == [] {
      assert a + b == a;
    } else {
      var n := |b| - 1;
      assert (a + b)[..|a + b| - 1] == a + b[..n];
      SupportLinesAppend(a, b[..n], loads);
      AppendAssoc(SupportLines(a, loads), SupportLines(b[..n], loads), EntryLines(b[n], loads));
    }
  }

  /** `s[:n]`. */
  function Take(s: string, n: nat): (r: string)
    ensures |r| <= n && StartsWith(s, r)
    ensures |s| <= n ==> r == s
    ensures |s| > n ==> |r| == n
  {
    if |s| <= n then s else s[..n]
  }

  function OrEmpty(s: Option<string>): string
  {
    if s.Some? then s.value else ""
  }

  function LogLine(log: Log): string
  {
    "  [" + log.role + "] impl: " + Take(OrEmpty(log.implNotes), 200)
      + "  outcome: " + Take(OrEmpty(log.outcomeNotes), 200)
  }

  function LogLines(logs: seq<Log>): (r: seq<string>)
    ensures |r| == |logs| && forall i :: 0 <= i < |logs| ==> r[i] == LogLine(logs[i])
  {
    if logs == [] then [] else LogLines(logs[..|logs| - 1]) + [LogLine(logs[|logs| - 1])]
  }

  /** `tracking_logs[:10]`. */
  function Recent(logs: seq<Log>): (r: seq<Log>)
    ensures |r| == if |logs| <= 10 then |logs| else 10
    ensures r == logs[..|r|]
  {
    if |logs| <= 10 then logs else logs[..10]
  }

  function TrackingLines(logs: seq<Log>): seq<string>
  {
    if logs == [] then [] else [TrackingHeading] + LogLines(Recent(logs))
  }

  /** The lines of the confidential context, or the first KeyError of a
      history or stakeholder item without "text". */
  function ContextOf(profile: Profile, supports: seq<Support>, logs: seq<Log>, loads: Loads): Result<seq<string>>
  {
    match ItemLines(profile.strengths)
    case Err(e) => Err(e)
    case Ok(strengths) =>
      match ItemLines(profile.history)
      case Err(e) => Err(e)
      case Ok(history) =>
        match ItemLines(profile.hopes)
        case Err(e) => Err(e)
        case Ok(hopes) =>
          match ItemLines(profile.stakeholders)
          case Err(e) => Err(e)
          case Ok(stakeholders) =>
            Ok([Header, "Student full name: " + profile.name, StrengthsHeading] + strengths
              + [SupportsHeading] + SupportLines(supports, loads)
              + [HistoryHeading] + history
              + [GoalsHeading] + hopes
              + [StakeholdersHeading] + stakeholders
              + TrackingLines(logs)
              + [Footer])
  }

  /** What `aggregate` returns, or the first exception it raises. */
  function AggregateOf(profile: Profile, supports: seq<Support>, logs: seq<Log>, loads: Loads): Result<Tiers>
  {
    AggregateWith(profile, supports, logs, loads, StrengthTable(), GoalTable())
  }

  /** What `aggregate` returns over given strength and goal keyword tables. */
  function AggregateWith(profile: Profile, supports: seq<Support>, logs: seq<Log>, loads: Loads,
                         strengthTable: seq<Entry>, goalTable: seq<Entry>): Result<Tiers>
  {
    match TeacherSafeWith(profile, supports, loads, strengthTable, goalTable)
    case Err(e) => Err(e)
    case Ok(ts) =>
      match ContextOf(profile, supports, logs, loads)
      case Err(e) => Err(e)
      case Ok(lines) => Ok(Tiers(ts, Join("\n", lines)))
  }

  // ---------------------------------------------------------------- exceptions stop the loops

  lemma {:induction false} SupportLabelsErr(supports: seq<Support>, i: nat, loads: Loads)
    requires i <= |supports| && SupportLabels(supports[..i], loads).Err?
    ensures SupportLabels(supports, loads) == SupportLabels(supports[..i], loads)
    decreases |supports|
  {
    if i < |supports| {
      var init := supports[..|supports| - 1];
      assert init[..i] == supports[..i];
      SupportLabelsErr(init, i, loads);
    } else {
      assert supports[..i] == supports;
    }
  }

  lemma {:induction false} ThemesErr(items: seq<Item>, i: nat, table: seq<Entry>)
    requires i <= |items| && ThemesOf(items[..i], table).Err?
    ensures ThemesOf(items, table) == ThemesOf(items[..i], table)
    decreases |items|
  {
    if i < |items| {
      var init := items[..|items| - 1];
      assert init[..i] == items[..i];
      ThemesErr(init, i, table);
    } else {
      assert items[..i] == items;
    }
  }

  lemma {:induction false} ItemLinesErr(items: seq<Item>, i: nat)
    requires i <= |items| && ItemLines(items[..i]).Err?
    ensures ItemLines(items) == ItemLines(items[..i])
    decreases |items|
  {
    if i < |items| {
      var init := items[..|items| - 1];
      assert init[..i] == items[..i];
      ItemLinesErr(init, i);
    } else {
      assert items[..i] == items;
    }
  }

  // ---------------------------------------------------------------- the imperative code

  /** What the loop over the supports leaves behind. */
  datatype Scan = Scan(
    counts: seq<(string, nat)>,
    ratedCounts: seq<(string, nat)>,
    totals: map<string, real>,
    udl: seq<Json>,
    pour: seq<Json>)

  /** The loop state after the supports `done`: category counts, rating
      counts and totals, and the labels collected so far. */
  ghost predicate Scanned(done: seq<Support>, loads: Loads, scan: Scan)
  {
    && scan.counts == Tally(Categories(done))
    && scan.ratedCounts == Tally(RatedCategories(done))
    && (forall c :: c in scan.totals <==> c in RatedCategories(done))
    && (forall c :: c in scan.totals ==> scan.totals[c] == RatingTotal(done, c))
    && SupportLabels(done, loads) == Ok((scan.udl, scan.pour))
  }

  lemma CategoriesSnoc(done: seq<Support>, s: Support)
    ensures Tally(Categories(done + [s])) == Bump(Tally(Categories(done)), s.category)
  {
    assert Categories(done + [s]) == Categories(done) + [s.category];
    TallySnoc(Categories(done), s.category);
  }

  lemma RatedSnoc(done: seq<Support>, s: Support)
    ensures RatedCategories(done + [s]) == RatedCategories(done) + (if s.rating.Some? then [s.category] else [])
  {
    assert (done + [s])[..|done|] == done;
  }

  lemma RatedTallySnoc(done: seq<Support>, s: Support)
    ensures Tally(RatedCategories(done + [s]))
      == if s.rating.Some? then Bump(Tally(RatedCategories(done)), s.category) else Tally(RatedCategories(done))
  {
    RatedSnoc(done, s);
    if s.rating.Some? {
      TallySnoc(RatedCategories(done), s.category);
    } else {
      assert RatedCategories(done) + [] == RatedCategories(done);
    }
  }

  lemma TotalSnoc(done: seq<Support>, s: Support, c: string)
    ensures RatingTotal(done + [s], c)
      == RatingTotal(done, c) + (if s.category == c && s.rating.Some? then s.rating.value.value else 0.0)
  {
    assert (done + [s])[..|done|] == done;
  }

  lemma LabelsSnoc(done: seq<Support>, s: Support, loads: Loads)
    ensures SupportLabels(done + [s], loads)
      == match SupportLabels(done, loads)
         case Err(e) => Err(e)
         case Ok((udl, pour)) =>
           match UdlLabels(ParseJsonField(s.udlMapping, loads))
           case Err(e) => Err(e)
           case Ok(u) =>
             match PourLabels(ParseJsonField(s.pourMapping, loads))
             case Err(e) => Err(e)
             case Ok(p) => Ok((udl + u, pour + p))
  {
    assert (done + [s])[..|done|] == done;
  }

  lemma {:induction false} TotalUnrated(done: seq<Support>, c: string)
    requires c !in RatedCategories(done)
    ensures RatingTotal(done, c) == 0.0
  {
    if done != [] {
      TotalUnrated(done[..|done| - 1], c);
    }
  }

  /** `totals[s.category] += rating` on a `defaultdict(float)` when the
      support is rated. */
  function AddRating(totals: map<string, real>, s: Support): map<string, real>
  {
    if s.rating.Some? then
      totals[s.category := (if s.category in totals then totals[s.category] else 0.0) + s.rating.value.value]
    else totals
  }

  /** `counts[s.category] += 1` when the support is rated. */
  function CountRating(counts: seq<(string, nat)>, s: Support): seq<(string, nat)>
    requires Distinct(Keys(counts))
  {
    if s.rating.Some? then Bump(counts, s.category) else counts
  }

  lemma StepTotals(done: seq<Support>, s: Support, totals: map<string, real>, next: map<string, real>)
    requires forall c :: c in totals <==> c in RatedCategories(done)
    requires forall c :: c in totals ==> totals[c] == RatingTotal(done, c)
    requires next == AddRating(totals, s)
    ensures forall c :: c in next <==> c in RatedCategories(done + [s])
    ensures forall c :: c in next ==> next[c] == RatingTotal(done + [s], c)
  {
    RatedSnoc(done, s);
    forall c | c in next ensures next[c] == RatingTotal(done + [s], c) {
      TotalSnoc(done, s, c);
      if c !in totals { TotalUnrated(done, c); }
    }
  }

  /** One pass of the support loop keeps `Scanned`. */
  lemma ScanStep(done: seq<Support>, s: Support, loads: Loads, scan: Scan, next: Scan, u: seq<Json>, p: seq<Json>)
    requires Scanned(done, loads, scan)
    requires next.counts == Bump(scan.counts, s.category)
    requires next.ratedCounts == CountRating(scan.ratedCounts, s)
    requires next.totals == AddRating(scan.totals, s)
    requires UdlLabels(ParseJsonField(s.udlMapping, loads)) == Ok(u)
    requires PourLabels(ParseJsonField(s.pourMapping, loads)) == Ok(p)
    requires next.udl == scan.udl + u && next.pour == scan.pour + p
    ensures Scanned(done + [s], loads, next)
  {
    CategoriesSnoc(done, s);
    RatedTallySnoc(done, s);
    LabelsSnoc(done, s, loads);
    StepTotals(done, s, scan.totals, next.totals);
  }

  lemma ScannedKeys(done: seq<Support>, loads: Loads, scan: Scan)
    requires Scanned(done, loads, scan)
    ensures forall i :: 0 <= i < |scan.ratedCounts| ==> scan.ratedCounts[i].0 in scan.totals
  {
    TallyKeys(RatedCategories(done));
    FirstSeenElems(RatedCategories(done));
    forall i | 0 <= i < |scan.ratedCounts| ensures scan.ratedCounts[i].0 in scan.totals {
      assert scan.ratedCounts[i].0 == Keys(scan.ratedCounts)[i];
    }
  }

  /** One pass of the loop over the supports: bump the category count, add
      a present rating to the category's total and count, and collect the
      UDL and POUR labels, or raise. */
  method ScanOne(scan: Scan, s: Support, loads: Loads, ghost done: seq<Support>) returns (r: Result<Scan>)
    requires Scanned(done, loads, scan)
    ensures r.Err? ==> SupportLabels(done + [s], loads) == Err(r.error)
    ensures r.Ok? ==> Scanned(done + [s], loads, r.value)
  {
    LabelsSnoc(done, s, loads);
    var counts := Bump(scan.counts, s.category);
    var totals := AddRating(scan.totals, s);
    var ratedCounts := CountRating(scan.ratedCounts, s);
    var u := UdlLabels(ParseJsonField(s.udlMapping, loads));
    if u.Err? { return Err(u.error); }
    var p := PourLabels(ParseJsonField(s.pourMapping, loads));
    if p.Err? { return Err(p.error); }
    var next := Scan(counts, ratedCounts, totals, scan.udl + u.value, scan.pour + p.value);
    ScanStep(done, s, loads, scan, next, u.value, p.value);
    return Ok(next);
  }

  /** The loop over the supports, stopping at the first exception. */
  method ScanSupports(supports: seq<Support>, loads: Loads) returns (r: Result<Scan>)
    ensures r.Err? <==> SupportLabels(supports, loads).Err?
    ensures r.Err? ==> r.error == SupportLabels(supports, loads).error
    ensures r.Ok? ==> Scanned(supports, loads, r.value)
    ensures r.Ok? ==> forall i :: 0 <= i < |r.value.ratedCounts| ==> r.value.ratedCounts[i].0 in r.value.totals
  {
    var scan := Scan([], [], map[], [], []);
    for i := 0 to |supports|
      invariant Scanned(supports[..i], loads, scan)
    {
      assert supports[..i + 1] == supports[..i] + [supports[i]];
      var next := ScanOne(scan, supports[i], loads, supports[..i]);
      if next.Err? {
        SupportLabelsErr(supports, i + 1, loads);
        return Err(next.error);
      }
      scan := next.value;
    }
    assert supports[..|supports|] == supports;
    ScannedKeys(supports, loads, scan);
    return Ok(scan);
  }

  /** The loop that turns the rating totals and counts into the summary,
      skipping a category whose count is zero. */
  method Summarise(ratedCounts: seq<(string, nat)>, totals: map<string, real>, ghost supports: seq<Support>)
    returns (summary: seq<(string, real)>)
    requires forall i :: 0 <= i < |ratedCounts| ==> ratedCounts[i].0 in totals
    requires forall c :: c in totals ==> totals[c] == RatingTotal(supports, c)
    ensures summary == SummaryOf(ratedCounts, supports)
  {
    summary := [];
    for i := 0 to |ratedCounts|
      invariant summary == SummaryOf(ratedCounts[..i], supports)
    {
      assert ratedCounts[..i + 1][..i] == ratedCounts[..i];
      var (c, n) := ratedCounts[i];
      if n > 0 {
        summary := summary + [(c, totals[c] / (n as real))];
      }
    }
    assert ratedCounts[..|ratedCounts|] == ratedCounts;
  }

  /** `sorted({_generalise(_extract_text(x), table) for x in items})`: the
      themes are inserted one at a time into a strictly increasing list. */
  method ThemeSet(items: seq<Item>, table: seq<Entry>) returns (r: Result<seq<string>>)
    ensures r.Err? <==> ThemesOf(items, table).Err?
    ensures r.Err? ==> r.error == ThemesOf(items, table).error
    ensures r.Ok? ==> r.value == SortedSet(ThemesOf(items, table).value)
  {
    var acc: seq<string> := [];
    for i := 0 to |items|
      invariant ThemesOf(items[..i], table).Ok?
      invariant StrictlySorted(acc) && Elems(acc) == Elems(ThemesOf(items[..i], table).value)
    {
      assert items[..i + 1][..i] == items[..i];
      var g := GeneraliseItem(items[i], table);
      if g.Err? {
        ThemesErr(items, i + 1, table);
        return Err(g.error);
      }
      acc := InsertSorted(acc, g.value);
    }
    assert items[..|items|] == items;
    StrictlySortedUnique(acc, SortedSet(ThemesOf(items, table).value));
    return Ok(acc);
  }

  /** The teacher-safe tier, built as `aggregate` builds it. */
  method BuildTeacherSafe(profile: Profile, supports: seq<Support>, loads: Loads,
                          strengthTable: seq<Entry>, goalTable: seq<Entry>)
    returns (r: Result<TeacherSafe>)
    ensures r == TeacherSafeWith(profile, supports, loads, strengthTable, goalTable)
  {
    var categories := SortedSet(Categories(supports));
    var scan := ScanSupports(supports, loads);
    if scan.Err? { return Err(scan.error); }
    var summary := Summarise(scan.value.ratedCounts, scan.value.totals, supports);
    assert summary == EffSummary(supports);
    var strengths := ThemeSet(profile.strengths, strengthTable);
    if strengths.Err? { return Err(strengths.error); }
    var goals := ThemeSet(profile.hopes, goalTable);
    if goals.Err? { return Err(goals.error); }
    var first := FirstName(profile.name);
    if first.Err? { return Err(first.error); }
    var udl := SortLabels(scan.value.udl);
    if udl.Err? { return Err(udl.error); }
    var pour := SortLabels(scan.value.pour);
    if pour.Err? { return Err(pour.error); }
    r := Ok(TeacherSafe(
      first.value, categories, scan.value.counts, strengths.value, goals.value,
      ActiveCount(supports), udl.value, pour.value, summary));
  }

  /** Appends the bulleted line of every item, stopping at a KeyError. */
  method AppendItemLines(lines: seq<string>, items: seq<Item>) returns (r: Result<seq<string>>)
    ensures r.Err? <==> ItemLines(items).Err?
    ensures r.Err? ==> r.error == ItemLines(items).error
    ensures r.Ok? ==> r.value == lines + ItemLines(items).value
  {
    var acc := lines;
    for i := 0 to |items|
      invariant ItemLines(items[..i]).Ok? && acc == lines + ItemLines(items[..i]).value
    {
      assert items[..i + 1][..i] == items[..i];
      var t := ExtractText(items[i]);
      if t.Err? {
        ItemLinesErr(items, i + 1);
        return Err(t.error);
      }
      acc := acc + ["  - " + Shown(t.value)];
    }
    assert items[..|items|] == items;
    return Ok(acc);
  }

  /** Appends the lines of every support entry. */
  method AppendSupportLines(lines: seq<string>, supports: seq<Support>, loads: Loads) returns (r: seq<string>)
    ensures r == lines + SupportLines(supports, loads)
  {
    r := lines;
    for i := 0 to |supports|
      invariant r == lines + SupportLines(supports[..i], loads)
    {
      var entry := EntryLines(supports[i], loads);
      SupportLinesSnoc(supports, i, loads);
      AppendAssoc(lines, SupportLines(supports[..i], loads), entry);
      r := r + entry;
    }
    assert supports[..|supports|] == supports;
  }

  lemma AppendAssoc(a: seq<string>, b: seq<string>, c: seq<string>)
    ensures (a + b) + c == a + (b + c)
  {
  }

  lemma SupportLinesSnoc(supports: seq<Support>, i: nat, loads: Loads)
    requires i < |supports|
    ensures SupportLines(supports[..i + 1], loads) == SupportLines(supports[..i], loads) + EntryLines(supports[i], loads)
  {
    assert supports[..i + 1][..i] == supports[..i];
  }

  lemma LogLinesSnoc(logs: seq<Log>, i: nat)
    requires i < |logs|
    ensures LogLines(logs[..i + 1]) == LogLines(logs[..i]) + [LogLine(logs[i])]
  {
    assert logs[..i + 1][..i] == logs[..i];
  }

  /** Appends the line of every log. */
  method AppendLogLines(lines: seq<string>, logs: seq<Log>) returns (r: seq<string>)
    ensures r == lines + LogLines(logs)
  {
    r := lines;
    for i := 0 to |logs|
      invariant r == lines + LogLines(logs[..i])
    {
      LogLinesSnoc(logs, i);
      r := r + [LogLine(logs[i])];
    }
    assert logs[..|logs|] == logs;
  }

  /** Appends the tracking section when there are logs: its heading and the
      line of each of the first ten logs. */
  method AppendTrackingLines(lines: seq<string>, logs: seq<Log>) returns (r: seq<string>)
    ensures r == lines + TrackingLines(logs)
  {
    if logs == [] {
      r := lines;
      assert TrackingLines(logs) == [];
    } else {
      r := AppendLogLines(lines + [TrackingHeading], Recent(logs));
      assert TrackingLines(logs) == [TrackingHeading] + LogLines(Recent(logs));
    }
  }

  /** The confidential context, line by line. */
  method BuildContext(profile: Profile, supports: seq<Support>, logs: seq<Log>, loads: Loads)
    returns (r: Result<seq<string>>)
    ensures r == ContextOf(profile, supports, logs, loads)
  {
    var lines := [Header, "Student full name: " + profile.name, StrengthsHeading];
    var strengths := AppendItemLines(lines, profile.strengths);
    if strengths.Err? { return Err(strengths.error); }
    var withSupports := AppendSupportLines(strengths.value + [SupportsHeading], supports, loads);
    var history := AppendItemLines(withSupports + [HistoryHeading], profile.history);
    if history.Err? { return Err(history.error); }
    var hopes := AppendItemLines(history.value + [GoalsHeading], profile.hopes);
    if hopes.Err? { return Err(hopes.error); }
    var stakeholders := AppendItemLines(hopes.value + [StakeholdersHeading], profile.stakeholders);
    if stakeholders.Err? { return Err(stakeholders.error); }
    var tracked := AppendTrackingLines(stakeholders.value, logs);
    return Ok(tracked + [Footer]);
  }

  /** `PrivacyAggregator.aggregate(profile, supports, tracking_logs)`; the
      confidential block is the lines joined with newlines. */
  method Aggregate(profile: Profile, supports: seq<Support>, logs: seq<Log>, loads: Loads)
    returns (r: Result<Tiers>)
    ensures r == AggregateOf(profile, supports, logs, loads)
  {
    r := AggregateOver(profile, supports, logs, loads, StrengthTable(), GoalTable());
  }

  /** `aggregate` over given strength and goal keyword tables. */
  method AggregateOver(profile: Profile, supports: seq<Support>, logs: seq<Log>, loads: Loads,
                       strengthTable: seq<Entry>, goalTable: seq<Entry>)
    returns (r: Result<Tiers>)
    ensures r == AggregateWith(profile, supports, logs, loads, strengthTable, goalTable)
  {
    var teacherSafe := BuildTeacherSafe(profile, supports, loads, strengthTable, goalTable);
    if teacherSafe.Err? { return Err(teacherSafe.error); }
    var lines := BuildContext(profile, supports, logs, loads);
    if lines.Err? { return Err(lines.error); }
    return Ok(Tiers(teacherSafe.value, Join("\n", lines.value)));
  }
}

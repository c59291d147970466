/** What the two tiers of `PrivacyAggregator.aggregate` promise, proved about
    the specification functions of module Aggregator. */
module AggregatorFacts {
  import opened Py
  import opened Text
  import opened Order
  import opened Counting
  import opened PyJson
  import opened Themes
  import opened Aggregator

  // ---------------------------------------------------------------- category counts

  /** `support_category_counts` counts every support exactly once, keyed in
      first-seen order, and `support_categories` is exactly its key set,
      sorted, whatever the keyword tables. */
  lemma CategoryCounts(profile: Profile, supports: seq<Support>, loads: Loads,
                        strengthTable: seq<Entry>, goalTable: seq<Entry>)
    requires TeacherSafeWith(profile, supports, loads, strengthTable, goalTable).Ok?
    ensures var ts := TeacherSafeWith(profile, supports, loads, strengthTable, goalTable).value;
      && Sum(ts.categoryCounts) == |supports|
      && CountsMatch(ts.categoryCounts, Categories(supports))
      && Keys(ts.categoryCounts) == FirstSeen(Categories(supports))
      && StrictlySorted(ts.supportCategories)
      && (forall c :: c in ts.supportCategories <==> c in Keys(ts.categoryCounts))
      && (forall c :: c in ts.supportCategories <==> exists i :: 0 <= i < |supports| && supports[i].category == c)
  {
    TeacherSafeFields(profile, supports, loads, strengthTable, goalTable);
    CategoryFacts(supports);
  }

  /** Where the fields of the teacher-safe tier come from. */
  lemma TeacherSafeFields(profile: Profile, supports: seq<Support>, loads: Loads,
                           strengthTable: seq<Entry>, goalTable: seq<Entry>)
    requires TeacherSafeWith(profile, supports, loads, strengthTable, goalTable).Ok?
    ensures var ts := TeacherSafeWith(profile, supports, loads, strengthTable, goalTable).value;
      && ts.categoryCounts == Tally(Categories(supports))
      && ts.supportCategories == SortedSet(Categories(supports))
      && ThemesOf(profile.strengths, strengthTable).Ok?
      && ThemesOf(profile.hopes, goalTable).Ok?
      && ts.strengthThemes == SortedSet(ThemesOf(profile.strengths, strengthTable).value)
      && ts.goalThemes == SortedSet(ThemesOf(profile.hopes, goalTable).value)
  {
  }

  lemma CategoryFacts(supports: seq<Support>)
    ensures var cs := Categories(supports);
      && Sum(Tally(cs)) == |supports|
      && CountsMatch(Tally(cs), cs)
      && Keys(Tally(cs)) == FirstSeen(cs)
      && StrictlySorted(SortedSet(cs))
      && (forall c :: c in SortedSet(cs) <==> c in Keys(Tally(cs)))
      && (forall c :: c in SortedSet(cs) <==> exists i :: 0 <= i < |supports| && supports[i].category == c)
  {
    var cs := Categories(supports);
    TallySum(cs);
    TallyCounts(cs);
    TallyKeys(cs);
    FirstSeenElems(cs);
    assert forall c :: c in SortedSet(cs) <==> c in Elems(cs);
  }

  // ---------------------------------------------------------------- themes

  /** A list of themes built from `items` by `sorted({... for item in items})`. */
  ghost predicate ThemeSetOf(themes: seq<string>, items: seq<Item>, table: seq<Entry>)
  {
    && StrictlySorted(themes)
    && |themes| <= |items|
    && forall t :: t in themes <==> exists i :: 0 <= i < |items| && GeneraliseItem(items[i], table) == Ok(t)
  }

  lemma SortedThemes(items: seq<Item>, table: seq<Entry>)
    requires ThemesOf(items, table).Ok?
    ensures ThemeSetOf(SortedSet(ThemesOf(items, table).value), items, table)
  {
    var ts := ThemesOf(items, table).value;
    forall t ensures t in SortedSet(ts) <==> exists i :: 0 <= i < |items| && GeneraliseItem(items[i], table) == Ok(t) {
      assert t in SortedSet(ts) <==> t in Elems(ts);
      if t in ts {
        var i :| 0 <= i < |ts| && ts[i] == t;
        assert GeneraliseItem(items[i], table) == Ok(t);
      }
    }
  }

  /** `strength_themes` and `goal_themes` are sorted and duplicate-free, no
      longer than the strengths and the hopes they come from, and hold
      exactly the theme of each of those items under its table. */
  lemma ThemeLists(profile: Profile, supports: seq<Support>, loads: Loads,
                    strengthTable: seq<Entry>, goalTable: seq<Entry>)
    requires TeacherSafeWith(profile, supports, loads, strengthTable, goalTable).Ok?
    ensures ThemeSetOf(TeacherSafeWith(profile, supports, loads, strengthTable, goalTable).value.strengthThemes, profile.strengths, strengthTable)
    ensures ThemeSetOf(TeacherSafeWith(profile, supports, loads, strengthTable, goalTable).value.goalThemes, profile.hopes, goalTable)
  {
    TeacherSafeFields(profile, supports, loads, strengthTable, goalTable);
    SortedThemes(profile.strengths, strengthTable);
    SortedThemes(profile.hopes, goalTable);
  }

  /** A strength or a hope given as a dict without "text" makes `aggregate`
      raise, whatever else the profile holds and whatever the keyword tables. */
  lemma MissingTextRaises(profile: Profile, supports: seq<Support>, logs: seq<Log>, loads: Loads,
                           strengthTable: seq<Entry>, goalTable: seq<Entry>, i: nat)
    requires (i < |profile.strengths| && profile.strengths[i] == Dict(None))
          || (i < |profile.hopes| && profile.hopes[i] == Dict(None))
    ensures AggregateWith(profile, supports, logs, loads, strengthTable, goalTable).Err?
  {
    if SupportLabels(supports, loads).Ok? {
      if i < |profile.strengths| && profile.strengths[i] == Dict(None) {
        ThemesFail(profile.strengths, i, strengthTable);
      } else if ThemesOf(profile.strengths, strengthTable).Ok? {
        ThemesFail(profile.hopes, i, goalTable);
      }
    }
  }

  lemma ThemesFail(items: seq<Item>, i: nat, table: seq<Entry>)
    requires i < |items| && GeneraliseItem(items[i], table).Err?
    ensures ThemesOf(items, table).Err?
  {
  }

  // ---------------------------------------------------------------- effectiveness

  lemma {:induction false} SummaryOfPositive(counts: seq<(string, nat)>, supports: seq<Support>)
    requires forall k :: 0 <= k < |counts| ==> counts[k].1 > 0
    ensures |SummaryOf(counts, supports)| == |counts|
    ensures forall k :: 0 <= k < |counts| ==>
      SummaryOf(counts, supports)[k] == (counts[k].0, RatingTotal(supports, counts[k].0) / (counts[k].1 as real))
  {
    if counts != [] {
      SummaryOfPositive(counts[..|counts| - 1], supports);
    }
  }

  /** The categories of an effectiveness summary, in order. */
  function SummaryKeys(e: seq<(string, real)>): (r: seq<string>)
    ensures |r| == |e| && forall k :: 0 <= k < |e| ==> r[k] == e[k].0
  {
    seq(|e|, k requires 0 <= k < |e| => e[k].0)
  }

  /** `effectiveness_summary` has one entry per rated category, in first-seen
      order, holding the mean of that category's ratings. */
  lemma EffectivenessMeans(supports: seq<Support>)
    ensures var rated := FirstSeen(RatedCategories(supports));
      && |EffSummary(supports)| == |rated|
      && forall k :: 0 <= k < |rated| ==>
           var n := Count(RatedCategories(supports), rated[k]);
           n > 0 && EffSummary(supports)[k] == (rated[k], RatingTotal(supports, rated[k]) / (n as real))
  {
    var rc := RatedCategories(supports);
    var t := Tally(rc);
    TallyPositive(rc);
    TallyKeys(rc);
    TallyCounts(rc);
    SummaryOfPositive(t, supports);
    assert forall k :: 0 <= k < |t| ==> Keys(t)[k] == t[k].0;
  }

  /** A category has an entry in `effectiveness_summary` exactly when at
      least one of its supports carries a rating; no category appears
      twice. */
  lemma EffectivenessKeys(supports: seq<Support>)
    ensures forall c :: c in SummaryKeys(EffSummary(supports)) <==>
      exists i :: 0 <= i < |supports| && supports[i].category == c && supports[i].rating.Some?
    ensures Distinct(SummaryKeys(EffSummary(supports)))
  {
    var rc := RatedCategories(supports);
    EffectivenessMeans(supports);
    FirstSeenElems(rc);
    RatedCategoriesMembers(supports);
    assert SummaryKeys(EffSummary(supports)) == FirstSeen(rc);
  }

  // ---------------------------------------------------------------- UDL / POUR labels

  /** The labels of a dict's items are the string and list values, plus
      every key when `withKeys` holds; the only failure is a list value
      holding something unhashable. */
  lemma {:induction false} ItemLabelsMembers(items: seq<(string, Json)>, withKeys: bool)
    ensures ItemLabels(items, withKeys).Err? <==>
      exists e :: e in items && ValueLabels(e.1).Err?
    ensures ItemLabels(items, withKeys).Ok? ==> forall x :: x in ItemLabels(items, withKeys).value <==>
      exists e :: e in items && LabelOfItem(x, e, withKeys)
  {
    if items != [] {
      var init := items[..|items| - 1];
      var last := items[|items| - 1];
      ItemLabelsMembers(init, withKeys);
      assert items == init + [last];
      var r := ItemLabels(items, withKeys);
      if r.Ok? {
        var ls := ItemLabels(init, withKeys).value;
        assert r.value == ls + (if withKeys then [JStr(last.0)] else []) + ValueLabels(last.1).value;
        forall x | x in r.value ensures exists e :: e in items && LabelOfItem(x, e, withKeys) {
          if x in ls {
            var e :| e in init && LabelOfItem(x, e, withKeys);
            assert e in items;
          } else {
            assert LabelOfItem(x, last, withKeys);
          }
        }
      }
    }
  }

  predicate LabelOfItem(x: Json, e: (string, Json), withKeys: bool)
  {
    (withKeys && x == JStr(e.0)) || (ValueLabels(e.1).Ok? && x in ValueLabels(e.1).value)
  }

  /** The labels of a decoded object come from the last field of each key,
      the one the dict keeps: its string or list value, plus its key when
      `withKeys` holds; a shadowed field neither adds a label nor raises. */
  lemma FieldLabelsMembers(fields: seq<(string, Json)>, withKeys: bool)
    ensures FieldLabels(fields, withKeys).Err? <==>
      exists i :: LastOfKey(fields, i) && ValueLabels(fields[i].1).Err?
    ensures FieldLabels(fields, withKeys).Ok? ==> forall x :: x in FieldLabels(fields, withKeys).value <==>
      exists i :: LastOfKey(fields, i) && LabelOfItem(x, fields[i], withKeys)
  {
    ItemLabelsMembers(Items(fields), withKeys);
    ItemsAreLastFields(fields);
  }

  lemma {:induction false} ItemLabelsOfBooleans(items: seq<(string, Json)>)
    requires forall k :: 0 <= k < |items| ==> items[k].1.JBool?
    ensures ItemLabels(items, false) == Ok([])
  {
    if items != [] {
      var init := items[..|items| - 1];
      ItemLabelsOfBooleans(init);
      assert ValueLabels(items[|items| - 1].1) == Ok([]);
      var ls: seq<Json> := [];
      assert ls + [] + [] == [];
    }
  }

  /** A UDL mapping never contributes its keys: one whose values are all
      booleans, like `{"engagement": true}`, contributes no label at all. */
  lemma UdlIgnoresBooleans(fields: seq<(string, Json)>)
    requires forall i :: 0 <= i < |fields| ==> fields[i].1.JBool?
    ensures UdlLabels(JObj(fields)) == Ok([])
  {
    var items := Items(fields);
    forall k | 0 <= k < |items| ensures items[k].1.JBool? {
      var i :| 0 <= i < |fields| && fields[i] == items[k];
    }
    ItemLabelsOfBooleans(items);
  }

  /** With keys, the labels of a dict's items are the labels without keys
      plus every key. */
  lemma ItemLabelsSplit(items: seq<(string, Json)>)
    requires ItemLabels(items, true).Ok? && ItemLabels(items, false).Ok?
    ensures forall x :: x in ItemLabels(items, true).value <==>
      x in ItemLabels(items, false).value || (x.JStr? && x.s in KeySet(items))
  {
    var pour := ItemLabels(items, true).value;
    var udl := ItemLabels(items, false).value;
    ItemLabelsMembers(items, true);
    ItemLabelsMembers(items, false);
    forall x | x in pour ensures x in udl || (x.JStr? && x.s in KeySet(items)) {
      var e :| e in items && LabelOfItem(x, e, true);
      if x != JStr(e.0) {
        assert LabelOfItem(x, e, false);
      } else {
        var k :| 0 <= k < |items| && items[k] == e;
      }
    }
    forall x | x in udl ensures x in pour {
      var e :| e in items && LabelOfItem(x, e, false);
      assert LabelOfItem(x, e, true);
    }
    forall x: Json | x.JStr? && x.s in KeySet(items) ensures x in pour {
      var k :| 0 <= k < |items| && items[k].0 == x.s;
      assert LabelOfItem(x, items[k], true);
    }
  }

  /** A POUR mapping contributes every key of the dict, and fails exactly
      when the same mapping read as a UDL mapping would; its labels are the
      UDL labels plus the keys. */
  lemma PourAddsKeys(fields: seq<(string, Json)>)
    ensures PourLabels(JObj(fields)).Err? <==> UdlLabels(JObj(fields)).Err?
    ensures PourLabels(JObj(fields)).Ok? ==>
      (forall i :: 0 <= i < |fields| ==> JStr(fields[i].0) in PourLabels(JObj(fields)).value)
      && forall x :: x in PourLabels(JObj(fields)).value <==>
           x in UdlLabels(JObj(fields)).value || exists i :: 0 <= i < |fields| && x == JStr(fields[i].0)
  {
    var items := Items(fields);
    ItemLabelsMembers(items, true);
    ItemLabelsMembers(items, false);
    if ItemLabels(items, true).Ok? {
      ItemLabelsSplit(items);
      ItemsKeySet(fields);
      forall x: Json ensures (x.JStr? && x.s in KeySet(items)) <==> exists i :: 0 <= i < |fields| && x == JStr(fields[i].0) {
        if x.JStr? && x.s in KeySet(fields) {
          var i :| 0 <= i < |fields| && fields[i].0 == x.s;
        }
      }
    }
  }

  /** An object holding one key twice is the dict of its second value. */
  lemma ItemsOfRepeatedKey(key: string, v: Json, w: Json)
    ensures Items([(key, v), (key, w)]) == [(key, w)]
  {
    var f := [(key, v), (key, w)];
    assert FieldKeys(f) == [key, key];
    assert Counting.FirstSeen([key, key]) == [key] by {
      assert [key][..0] == [];
      assert Counting.FirstSeen([key]) == [key];
      assert [key, key][..1] == [key];
    }
    assert LastIndex(f, key) == 1;
  }

  /** `{"a": "x", "a": "y"}` adds the label "y" alone. */
  lemma RepeatedKeyLabel()
    ensures UdlLabels(JObj([("a", JStr("x")), ("a", JStr("y"))])) == Ok([JStr("y")])
  {
    ItemsOfRepeatedKey("a", JStr("x"), JStr("y"));
    var items := [("a", JStr("y"))];
    assert items[..0] == [];
    var none: seq<Json> := [];
    assert none + [] + [JStr("y")] == [JStr("y")];
  }

  /** `{"a": "x", "a": "y"}` is printed as `{"a": "y"}`. */
  lemma RepeatedKeyDumps()
    ensures Dumps(JObj([("a", JStr("x")), ("a", JStr("y"))])) == "{\"a\": \"y\"}"
  {
    ItemsOfRepeatedKey("a", JStr("x"), JStr("y"));
  }

  /** In `{"a": [[1]], "a": []}` the unhashable list is shadowed, so no
      TypeError is raised. */
  lemma ShadowedListRaisesNothing()
    ensures UdlLabels(JObj([("a", JArr([JArr([JInt(1)])])), ("a", JArr([]))])) == Ok([])
  {
    ItemsOfRepeatedKey("a", JArr([JArr([JInt(1)])]), JArr([]));
    var items := [("a", JArr([]))];
    assert items[..0] == [];
    var none: seq<Json> := [];
    assert none + [] + [] == [];
  }

  /** The label lists gathered over all supports hold exactly the labels of
      each support's mapping. */
  lemma SupportLabelsMembers(supports: seq<Support>, loads: Loads)
    ensures SupportLabels(supports, loads).Ok? ==>
      (forall x :: x in SupportLabels(supports, loads).value.0 <==>
        exists i :: 0 <= i < |supports| && UdlOf(supports[i], loads).Ok? && x in UdlOf(supports[i], loads).value)
      && (forall x :: x in SupportLabels(supports, loads).value.1 <==>
        exists i :: 0 <= i < |supports| && PourOf(supports[i], loads).Ok? && x in PourOf(supports[i], loads).value)
  {
    UdlLabelsMembers(supports, loads);
    PourLabelsMembers(supports, loads);
  }

  /** The UDL half of `SupportLabelsMembers`. */
  lemma {:induction false} UdlLabelsMembers(supports: seq<Support>, loads: Loads)
    ensures SupportLabels(supports, loads).Ok? ==>
      forall x :: x in SupportLabels(supports, loads).value.0 <==>
        exists i :: 0 <= i < |supports| && UdlOf(supports[i], loads).Ok? && x in UdlOf(supports[i], loads).value
  {
    if supports != [] {
      var init := supports[..|supports| - 1];
      UdlLabelsMembers(init, loads);
      assert forall i :: 0 <= i < |init| ==> init[i] == supports[i];
    }
  }

  /** The POUR half of `SupportLabelsMembers`. */
  lemma {:induction false} PourLabelsMembers(supports: seq<Support>, loads: Loads)
    ensures SupportLabels(supports, loads).Ok? ==>
      forall x :: x in SupportLabels(supports, loads).value.1 <==>
        exists i :: 0 <= i < |supports| && PourOf(supports[i], loads).Ok? && x in PourOf(supports[i], loads).value
  {
    if supports != [] {
      var init := supports[..|supports| - 1];
      PourLabelsMembers(init, loads);
      assert forall i :: 0 <= i < |init| ==> init[i] == supports[i];
    }
  }

  function UdlOf(s: Support, loads: Loads): Result<seq<Json>>
  {
    UdlLabels(ParseJsonField(s.udlMapping, loads))
  }

  function PourOf(s: Support, loads: Loads): Result<seq<Json>>
  {
    PourLabels(ParseJsonField(s.pourMapping, loads))
  }

  // ---------------------------------------------------------------- the confidential context

  predicate Indented(line: string)
  {
    |line| > 0 && line[0] == ' '
  }

  lemma {:induction false} SupportLinesIndented(supports: seq<Support>, loads: Loads)
    ensures forall l :: l in SupportLines(supports, loads) ==> Indented(l)
  {
    if supports != [] {
      SupportLinesIndented(supports[..|supports| - 1], loads);
    }
  }

  lemma ItemLinesIndented(items: seq<Item>)
    requires ItemLines(items).Ok?
    ensures forall l :: l in ItemLines(items).value ==> Indented(l)
  {
    forall l | l in ItemLines(items).value ensures Indented(l) {
      var i :| 0 <= i < |items| && ItemLines(items).value[i] == l;
    }
  }

  /** The context starts with the confidential header, the student's full
      name and the strengths heading, lists the strengths in input order
      right after it, and ends with the closing line. */
  lemma ContextFrame(profile: Profile, supports: seq<Support>, logs: seq<Log>, loads: Loads)
    requires ContextOf(profile, supports, logs, loads).Ok?
    ensures var lines := ContextOf(profile, supports, logs, loads).value;
      && |lines| >= 8 + |profile.strengths| + |supports|
      && lines[0] == Header
      && lines[1] == "Student full name: " + profile.name
      && lines[2] == StrengthsHeading
      && (forall i :: 0 <= i < |profile.strengths| ==> lines[3 + i] == ItemLines(profile.strengths).value[i])
      && lines[3 + |profile.strengths|] == SupportsHeading
      && lines[|lines| - 1] == Footer
  {
    ContextShape(profile, supports, logs, loads);
    OpeningFrame(profile.name, ItemLines(profile.strengths).value, SupportLines(supports, loads),
      ItemLines(profile.history).value, ItemLines(profile.hopes).value, ItemLines(profile.stakeholders).value,
      TrackingLines(logs));
  }

  /** The context is the body, the tracking section and the closing line. */
  lemma ContextShape(profile: Profile, supports: seq<Support>, logs: seq<Log>, loads: Loads)
    requires ContextOf(profile, supports, logs, loads).Ok?
    ensures ItemLines(profile.strengths).Ok? && ItemLines(profile.history).Ok?
    ensures ItemLines(profile.hopes).Ok? && ItemLines(profile.stakeholders).Ok?
    ensures ContextOf(profile, supports, logs, loads).value
      == Body(profile, supports, loads) + TrackingLines(logs) + [Footer]
  {
  }

  lemma OpeningFrame(name: string, strengths: seq<string>, a: seq<string>, b: seq<string>, c: seq<string>,
                     d: seq<string>, e: seq<string>)
    ensures var lines := [Header, "Student full name: " + name, StrengthsHeading] + strengths
      + [SupportsHeading] + a + [HistoryHeading] + b + [GoalsHeading] + c + [StakeholdersHeading] + d
      + e + [Footer];
      && |lines| == 8 + |strengths| + |a| + |b| + |c| + |d| + |e|
      && lines[|lines| - 1] == Footer
      && lines[0] == Header
      && lines[1] == "Student full name: " + name
      && lines[2] == StrengthsHeading
      && (forall i :: 0 <= i < |strengths| ==> lines[3 + i] == strengths[i])
      && lines[3 + |strengths|] == SupportsHeading
  {
  }

  /** The lines before the tracking section. */
  function Body(profile: Profile, supports: seq<Support>, loads: Loads): seq<string>
    requires ItemLines(profile.strengths).Ok? && ItemLines(profile.history).Ok?
    requires ItemLines(profile.hopes).Ok? && ItemLines(profile.stakeholders).Ok?
  {
    [Header, "Student full name: " + profile.name, StrengthsHeading] + ItemLines(profile.strengths).value
      + [SupportsHeading] + SupportLines(supports, loads)
      + [HistoryHeading] + ItemLines(profile.history).value
      + [GoalsHeading] + ItemLines(profile.hopes).value
      + [StakeholdersHeading] + ItemLines(profile.stakeholders).value
  }

  lemma BodyLacksTracking(profile: Profile, supports: seq<Support>, loads: Loads)
    requires ItemLines(profile.strengths).Ok? && ItemLines(profile.history).Ok?
    requires ItemLines(profile.hopes).Ok? && ItemLines(profile.stakeholders).Ok?
    ensures TrackingHeading !in Body(profile, supports, loads)
  {
    ItemLinesIndented(profile.strengths);
    ItemLinesIndented(profile.history);
    ItemLinesIndented(profile.hopes);
    ItemLinesIndented(profile.stakeholders);
    SupportLinesIndented(supports, loads);
    assert TrackingHeading[0] == '\n' && !Indented(TrackingHeading);
    assert |TrackingHeading| == 27;
    assert |Header| != 27 && |StrengthsHeading| != 27 && |SupportsHeading| != 27;
    assert |HistoryHeading| != 27 && |GoalsHeading| != 27 && |StakeholdersHeading| != 27;
    assert ("Student full name: " + profile.name)[0] == 'S';
  }

  /** The tracking section appears exactly when there are logs; it then
      closes the lines just before the last one, with the first ten logs (or
      all of them when fewer) in input order. */
  ghost predicate TrackingShown(lines: seq<string>, logs: seq<Log>)
  {
    && (TrackingHeading in lines <==> logs != [])
    && (logs != [] ==>
          var n := |Recent(logs)|;
          && n == (if |logs| <= 10 then |logs| else 10)
          && |lines| >= n + 2
          && lines[|lines| - n - 2] == TrackingHeading
          && forall k :: 0 <= k < n ==> lines[|lines| - n - 1 + k] == LogLine(logs[k]))
  }

  lemma TrackingSection(profile: Profile, supports: seq<Support>, logs: seq<Log>, loads: Loads)
    requires ContextOf(profile, supports, logs, loads).Ok?
    ensures TrackingShown(ContextOf(profile, supports, logs, loads).value, logs)
  {
    var body := ContextBody(profile, supports, logs, loads);
    TrackingTail(ContextOf(profile, supports, logs, loads).value, body, logs);
  }

  /** The context is a body without the tracking heading, then the
      tracking section and the closing line. */
  lemma ContextBody(profile: Profile, supports: seq<Support>, logs: seq<Log>, loads: Loads) returns (body: seq<string>)
    requires ContextOf(profile, supports, logs, loads).Ok?
    ensures TrackingHeading !in body
    ensures ContextOf(profile, supports, logs, loads).value == body + TrackingLines(logs) + [Footer]
  {
    ContextShape(profile, supports, logs, loads);
    BodyLacksTracking(profile, supports, loads);
    body := Body(profile, supports, loads);
  }

  lemma TrackingTail(lines: seq<string>, body: seq<string>, logs: seq<Log>)
    requires TrackingHeading !in body && lines == body + TrackingLines(logs) + [Footer]
    ensures TrackingShown(lines, logs)
  {
    if logs == [] {
      TrackingTailEmpty(lines, body, logs);
    } else {
      TrackingTailLogs(lines, body, logs);
    }
  }

  lemma TrackingTailEmpty(lines: seq<string>, body: seq<string>, logs: seq<Log>)
    requires TrackingHeading !in body && lines == body + TrackingLines(logs) + [Footer]
    requires logs == []
    ensures TrackingHeading !in lines
  {
    assert Footer[1] != TrackingHeading[1];
    assert lines == body + [Footer];
  }

  lemma TrackingTailLogs(lines: seq<string>, body: seq<string>, logs: seq<Log>)
    requires lines == body + TrackingLines(logs) + [Footer]
    requires logs != []
    ensures var n := |Recent(logs)|;
      && TrackingHeading in lines
      && lines[|lines| - n - 2] == TrackingHeading
      && forall k :: 0 <= k < n ==> lines[|lines| - n - 1 + k] == LogLine(logs[k])
  {
    TrackingLinesShape(logs);
    var t := TrackingLines(logs);
    assert lines[|body|] == t[0];
    forall j | |body| <= j < |body| + |t|
      ensures lines[j] == t[j - |body|]
    {
    }
  }

  /** The tracking section of a non-empty log list: the heading, then a
      line for each of the first ten logs. */
  lemma TrackingLinesShape(logs: seq<Log>)
    requires logs != []
    ensures var t := TrackingLines(logs);
      && |t| == |Recent(logs)| + 1
      && t[0] == TrackingHeading
      && forall k :: 0 <= k < |Recent(logs)| ==> t[1 + k] == LogLine(logs[k])
  {
    var recent := Recent(logs);
    var t := [TrackingHeading] + LogLines(recent);
    forall k | 0 <= k < |recent|
      ensures t[1 + k] == LogLine(logs[k])
    {
      assert t[1 + k] == LogLines(recent)[k];
      assert recent[k] == logs[k];
    }
  }

  /** Below an entry's summary line, its UDL and POUR lines are printable
      ASCII: `json.dumps` escapes every newline, so a mapping never breaks
      the entry's line structure. */
  lemma MappingLinesPrintable(s: Support, loads: Loads)
    ensures forall k :: 1 <= k < |EntryLines(s, loads)| ==> PrintableAscii(EntryLines(s, loads)[k])
  {
    var udl := ParseJsonField(s.udlMapping, loads);
    var pour := ParseJsonField(s.pourMapping, loads);
    DumpsPrintable(udl);
    DumpsPrintable(pour);
    PrintableAsciiConcat("    UDL: ", Dumps(udl));
    PrintableAsciiConcat("    POUR: ", Dumps(pour));
  }
}

/** The log-analytics helpers behind the charts: reading the effectiveness
    rating back out of a log's outcome notes, and counting logs per support
    category and per week. */
module ChartUtils {
  import opened Py
  import opened Text
  import opened Counting

  // ---------------------------------------------------------------- parse_effectiveness_rating

  /** The first index at or after `i` that is not white space (`\s*`). */
  function SkipSpaces(t: string, i: nat): (r: nat)
    requires i <= |t|
    ensures i <= r <= |t| && (forall k :: i <= k < r ==> IsSpace(t[k])) && (r < |t| ==> !IsSpace(t[r]))
    decreases |t| - i
  {
    if i < |t| && IsSpace(t[i]) then SkipSpaces(t, i + 1) else i
  }

  /** The end of the run of ASCII digits starting at `i` (`\d*`). */
  function DigitRun(t: string, i: nat): (r: nat)
    requires i <= |t|
    ensures i <= r <= |t| && (forall k :: i <= k < r ==> IsAsciiDigit(t[k])) && (r < |t| ==> !IsAsciiDigit(t[r]))
    decreases |t| - i
  {
    if i < |t| && IsAsciiDigit(t[i]) then DigitRun(t, i + 1) else i
  }

  predicate HasAt(t: string, i: nat, w: string)
  {
    i + |w| <= |t| && t[i..i + |w|] == w
  }

  function Pow10(n: nat): (r: nat)
    ensures r > 0
  {
    if n == 0 then 1 else 10 * Pow10(n - 1)
  }

  /** `float(whole + "." + frac)`, or `float(whole)` when `frac` is empty,
      as an exact decimal. */
  function DecimalValue(whole: string, frac: string): real
    requires forall k :: 0 <= k < |whole| ==> IsAsciiDigit(whole[k])
    requires forall k :: 0 <= k < |frac| ==> IsAsciiDigit(frac[k])
  {
    if frac == [] then DigitsValue(whole) as real
    else DigitsValue(whole) as real + DigitsValue(frac) as real / Pow10(|frac|) as real
  }

  /** `[Ee]ffectiveness` at position `i`. */
  predicate KeywordAt(t: string, i: nat)
  {
    i < |t| && (t[i] == 'E' || t[i] == 'e') && HasAt(t, i + 1, "ffectiveness")
  }

  /** The rest of the pattern after the keyword: `\s+rated:` and what
      follows. */
  function RatedFrom(t: string, i: nat): Option<real>
    requires i <= |t|
  {
    var j := SkipSpaces(t, i);
    if j == i || !HasAt(t, j, "rated:") then None else NumberFrom(t, j + 6)
  }

  /** `\s*(\d+(?:\.\d+)?)` and what follows. A fraction counts only when
      at least one digit follows the dot. */
  function NumberFrom(t: string, i: nat): Option<real>
    requires i <= |t|
  {
    var a := SkipSpaces(t, i);
    var b := DigitRun(t, a);
    if b == a then None
    else
      var f := if b < |t| && t[b] == '.' then DigitRun(t, b + 1) else b;
      var e := if f > b + 1 then f else b;
      if SlashFiveAt(t, e) then Some(DecimalValue(t[a..b], if e == b then "" else t[b + 1..e])) else None
  }

  /** `\s*\/\s*5` at position `i`. */
  predicate SlashFiveAt(t: string, i: nat)
    requires i <= |t|
  {
    var c := SkipSpaces(t, i);
    c < |t| && t[c] == '/' && var d := SkipSpaces(t, c + 1); d < |t| && t[d] == '5'
  }

  /** The number `[Ee]ffectiveness\s+rated:\s*(\d+(?:\.\d+)?)\s*\/\s*5`
      captures when it matches at position `i`. Every part of the pattern is
      followed by something it cannot match, so giving back characters never
      helps and one left-to-right scan decides the match. */
  function RatingAt(t: string, i: nat): Option<real>
    requires i <= |t|
  {
    if KeywordAt(t, i) then RatedFrom(t, i + 13) else None
  }

  /** The match at each starting position of `t`, the end included. */
  function Matches(t: string): (ms: seq<Option<real>>)
    ensures |ms| == |t| + 1 && forall k :: 0 <= k <= |t| ==> ms[k] == RatingAt(t, k)
  {
    seq(|t| + 1, k requires 0 <= k <= |t| => RatingAt(t, k))
  }

  /** The first value among `ms[i..]`: how `re.search` tries one starting
      position after another. */
  function FirstSome(ms: seq<Option<real>>, i: nat): Option<real>
    requires i <= |ms|
    decreases |ms| - i
  {
    if i == |ms| then None
    else if ms[i].Some? then ms[i]
    else FirstSome(ms, i + 1)
  }

  /** The search finds something exactly when some position matches, and
      then reports the leftmost match. */
  lemma {:induction false} FirstSomeIsLeftmost(ms: seq<Option<real>>, i: nat)
    requires i <= |ms|
    ensures FirstSome(ms, i).Some? <==> exists k :: i <= k < |ms| && ms[k].Some?
    ensures FirstSome(ms, i).Some? ==>
      exists k :: i <= k < |ms| && ms[k] == FirstSome(ms, i) && forall m :: i <= m < k ==> ms[m].None?
    decreases |ms| - i
  {
    if i < |ms| && ms[i].None? {
      FirstSomeIsLeftmost(ms, i + 1);
      if FirstSome(ms, i).Some? {
        var k :| i + 1 <= k < |ms| && ms[k] == FirstSome(ms, i + 1) && forall m :: i + 1 <= m < k ==> ms[m].None?;
        assert forall m :: i <= m < k ==> ms[m].None?;
      }
    }
  }

  /** `parse_effectiveness_rating(outcome_notes)`: nothing for missing or
      empty notes; otherwise the number of the leftmost match, if any. */
  function ParseEffectivenessRating(notes: Option<string>): (r: Option<real>)
    ensures notes.None? || notes.value == [] ==> r.None?
    ensures notes.Some? && notes.value != [] ==>
      (r.Some? <==> exists k :: 0 <= k < |Matches(notes.value)| && Matches(notes.value)[k].Some?)
    ensures r.Some? ==>
      exists k :: 0 <= k < |Matches(notes.value)| && Matches(notes.value)[k] == r
        && forall m :: 0 <= m < k ==> Matches(notes.value)[m].None?
  {
    if notes.None? || notes.value == [] then None
    else
      FirstSomeIsLeftmost(Matches(notes.value), 0);
      FirstSome(Matches(notes.value), 0)
  }

  /** The outcome note the log page writes for a rating. */
  function RatingNote(rating: nat): string
  {
    "Effectiveness rated: " + NatToString(rating) + "/5"
  }

  /** The note the log page writes reads back as the rating it was written
      from. */
  lemma RatingNoteRoundTrip(rating: nat)
    ensures ParseEffectivenessRating(Some(RatingNote(rating))) == Some(rating as real)
  {
    var t := RatingNote(rating);
    NoteMatchesAtStart(rating);
    assert Matches(t)[0] == RatingAt(t, 0);
  }

  lemma NoteMatchesAtStart(rating: nat)
    ensures RatingAt(RatingNote(rating), 0) == Some(rating as real)
  {
    var n := NatToString(rating);
    var t := RatingNote(rating);
    NoteKeyword(t, n);
    NumberOfNote(t, n);
    assert RatingAt(t, 0) == Some(DecimalValue(n, ""));
    DigitsValueOfNatToString(rating);
  }

  lemma NoteKeyword(t: string, n: string)
    requires t == "Effectiveness rated: " + n + "/5"
    ensures KeywordAt(t, 0) && RatedFrom(t, 13) == NumberFrom(t, 20)
    ensures |t| == 23 + |n| && t[20] == ' ' && t[21..21 + |n|] == n && t[21 + |n|..] == "/5"
  {
    var p := "Effectiveness rated: ";
    NoteParts(t, p, n);
    assert p[1..13] == "ffectiveness" && p[14..20] == "rated:";
    assert t[1..13] == p[1..13] && t[14..20] == p[14..20];
    assert t[13] == ' ' && t[14] == 'r';
    assert SkipSpaces(t, 13) == 14;
  }

  lemma NoteParts(t: string, p: string, n: string)
    requires t == p + n + "/5"
    ensures |t| == |p| + |n| + 2 && t[..|p|] == p && t[|p|..|p| + |n|] == n && t[|p| + |n|..] == "/5"
  {
  }

  lemma NumberOfNote(t: string, n: string)
    requires |t| == 23 + |n| && n != [] && forall k :: 0 <= k < |n| ==> IsAsciiDigit(n[k])
    requires t[20] == ' ' && t[21..21 + |n|] == n && t[21 + |n|..] == "/5"
    ensures NumberFrom(t, 20) == Some(DecimalValue(n, ""))
  {
    var b := 21 + |n|;
    assert t[21] == n[0];
    assert SkipSpaces(t, 20) == 21;
    assert t[b] == '/' && t[b + 1] == '5';
    assert DigitRun(t, 21) == b by {
      assert forall k :: 21 <= k < b ==> t[k] == n[k - 21];
    }
    assert SkipSpaces(t, b) == b;
    assert SkipSpaces(t, b + 1) == b + 1;
    assert SlashFiveAt(t, b);
  }

  // ---------------------------------------------------------------- logs

  /** A tracking log as the charts see it: the id of its support, if any,
      and the day its timestamp falls on as a proleptic Gregorian ordinal
      (1 January of year 1 is day 1, a Monday), if it has one. */
  datatype ChartLog = ChartLog(supportId: Option<int>, createdAt: Option<Day>)

  type Day = d: int | d >= 1 witness 1

  /** A support entry as the charts see it. */
  datatype SupportRef = SupportRef(category: Option<string>)

  // ---------------------------------------------------------------- group_logs_by_category

  /** `support.category.title() if support and support.category else
      "General"`. */
  function CategoryLabel(log: ChartLog, supports: map<int, SupportRef>): string
  {
    if log.supportId.Some? && log.supportId.value in supports
       && supports[log.supportId.value].category.Some?
       && supports[log.supportId.value].category.value != []
    then Title(supports[log.supportId.value].category.value)
    else "General"
  }

  function CategoryLabels(logs: seq<ChartLog>, supports: map<int, SupportRef>): (r: seq<string>)
    ensures |r| == |logs| && forall i :: 0 <= i < |logs| ==> r[i] == CategoryLabel(logs[i], supports)
  {
    seq(|logs|, i requires 0 <= i < |logs| => CategoryLabel(logs[i], supports))
  }

  predicate ByCountDescending(s: seq<(string, nat)>)
  {
    forall i, j :: 0 <= i < j < |s| ==> s[i].1 >= s[j].1
  }

  /** The entries of `s` whose count is `v`, in order. */
  function WithCount(s: seq<(string, nat)>, v: nat): seq<(string, nat)>
  {
    if s == [] then [] else (if s[0].1 == v then [s[0]] else []) + WithCount(s[1..], v)
  }

  /** One step of `sorted(..., key=count, reverse=True)`: `x` goes after
      every entry with a count at least its own, which keeps the sort
      stable. */
  function InsertByCount(s: seq<(string, nat)>, x: (string, nat)): seq<(string, nat)>
  {
    if s == [] || s[0].1 < x.1 then [x] + s else [s[0]] + InsertByCount(s[1..], x)
  }

  function SortByCount(t: seq<(string, nat)>): seq<(string, nat)>
  {
    if t == [] then [] else InsertByCount(SortByCount(t[..|t| - 1]), t[|t| - 1])
  }

  lemma {:induction false} InsertByCountPermutes(s: seq<(string, nat)>, x: (string, nat))
    ensures multiset(InsertByCount(s, x)) == multiset(s) + multiset{x}
    ensures Sum(InsertByCount(s, x)) == Sum(s) + x.1
  {
    if s != [] && s[0].1 >= x.1 {
      InsertByCountPermutes(s[1..], x);
      assert s == [s[0]] + s[1..];
      assert InsertByCount(s, x)[1..] == InsertByCount(s[1..], x);
    }
  }

  lemma {:induction false} InsertByCountSorted(s: seq<(string, nat)>, x: (string, nat))
    requires ByCountDescending(s)
    ensures ByCountDescending(InsertByCount(s, x))
  {
    if s != [] && s[0].1 >= x.1 {
      InsertByCountSorted(s[1..], x);
      InsertByCountBelow(s[1..], x, s[0].1);
      var rest := InsertByCount(s[1..], x);
      assert InsertByCount(s, x) == [s[0]] + rest;
    }
  }

  /** Inserting keeps an upper bound on the counts. */
  lemma {:induction false} InsertByCountBelow(s: seq<(string, nat)>, x: (string, nat), hi: int)
    requires x.1 <= hi && forall i :: 0 <= i < |s| ==> s[i].1 <= hi
    ensures forall j :: 0 <= j < |InsertByCount(s, x)| ==> InsertByCount(s, x)[j].1 <= hi
  {
    if s != [] && s[0].1 >= x.1 {
      InsertByCountBelow(s[1..], x, hi);
      assert InsertByCount(s, x) == [s[0]] + InsertByCount(s[1..], x);
    }
  }

  lemma {:induction false} InsertByCountStable(s: seq<(string, nat)>, x: (string, nat), v: nat)
    requires ByCountDescending(s)
    ensures WithCount(InsertByCount(s, x), v) == WithCount(s, v) + (if x.1 == v then [x] else [])
  {
    var r := InsertByCount(s, x);
    if s == [] || s[0].1 < x.1 {
      assert r[1..] == s;
      if x.1 == v {
        WithCountBelow(s, v);
      }
    } else {
      InsertByCountStable(s[1..], x, v);
      assert r[1..] == InsertByCount(s[1..], x);
    }
  }

  /** In a list sorted by decreasing count whose first count is below `v`,
      no entry has count `v`. */
  lemma {:induction false} WithCountBelow(s: seq<(string, nat)>, v: nat)
    requires ByCountDescending(s)
    requires s != [] ==> s[0].1 < v
    ensures WithCount(s, v) == []
  {
    if s != [] {
      WithCountBelow(s[1..], v);
    }
  }

  lemma {:induction false} WithCountSnoc(s: seq<(string, nat)>, x: (string, nat), v: nat)
    ensures WithCount(s + [x], v) == WithCount(s, v) + (if x.1 == v then [x] else [])
  {
    if s != [] {
      assert (s + [x])[1..] == s[1..] + [x];
      WithCountSnoc(s[1..], x, v);
    }
  }

  /** Python's `sorted(..., key=count, reverse=True)` on these entries: the
      result is ordered by decreasing count, is a permutation of the input,
      and keeps entries of equal count in their input order. */
  lemma {:induction false} SortByCountFacts(t: seq<(string, nat)>)
    ensures ByCountDescending(SortByCount(t))
    ensures multiset(SortByCount(t)) == multiset(t)
    ensures Sum(SortByCount(t)) == Sum(t)
    ensures forall v :: WithCount(SortByCount(t), v) == WithCount(t, v)
  {
    if t != [] {
      var init, x := t[..|t| - 1], t[|t| - 1];
      assert t == init + [x];
      SortByCountFacts(init);
      InsertByCountSorted(SortByCount(init), x);
      InsertByCountPermutes(SortByCount(init), x);
      SumSnoc(init, x);
      forall v ensures WithCount(SortByCount(t), v) == WithCount(t, v) {
        WithCountSnoc(init, x, v);
        InsertByCountStable(SortByCount(init), x, v);
      }
    }
  }

  /** What `group_logs_by_category` returns: the category counts, most
      frequent first. */
  function ByCategory(logs: seq<ChartLog>, supports: map<int, SupportRef>): seq<(string, nat)>
  {
    SortByCount(Tally(CategoryLabels(logs, supports)))
  }

  lemma CategoryStep(logs: seq<ChartLog>, supports: map<int, SupportRef>, i: nat)
    requires i < |logs|
    ensures Tally(CategoryLabels(logs[..i + 1], supports))
      == Bump(Tally(CategoryLabels(logs[..i], supports)), CategoryLabel(logs[i], supports))
  {
    assert CategoryLabels(logs[..i + 1], supports) == CategoryLabels(logs[..i], supports) + [CategoryLabel(logs[i], supports)];
    TallySnoc(CategoryLabels(logs[..i], supports), CategoryLabel(logs[i], supports));
  }

  /** `group_logs_by_category(logs, supports_map)`. */
  method GroupByCategory(logs: seq<ChartLog>, supports: map<int, SupportRef>) returns (r: seq<(string, nat)>)
    ensures r == ByCategory(logs, supports)
  {
    if logs == [] {
      return [];
    }
    var counts: seq<(string, nat)> := [];
    for i := 0 to |logs|
      invariant counts == Tally(CategoryLabels(logs[..i], supports))
    {
      var cat := CategoryLabel(logs[i], supports);
      CategoryStep(logs, supports, i);
      counts := Bump(counts, cat);
    }
    assert logs[..|logs|] == logs;
    r := SortByCount(counts);
  }

  /** Every log is counted once under its category's label ("General" when
      the support or its category is missing); the most frequent category
      comes first, and categories with equal counts keep the order in which
      they were first seen. */
  lemma CategoryCounts(logs: seq<ChartLog>, supports: map<int, SupportRef>)
    ensures var r := ByCategory(logs, supports);
      && (logs == [] ==> r == [])
      && Sum(r) == |logs|
      && ByCountDescending(r)
      && (forall i :: 0 <= i < |r| ==> r[i].1 == Count(CategoryLabels(logs, supports), r[i].0) && r[i].1 > 0)
      && (forall c :: c in Keys(r) <==> exists i :: 0 <= i < |logs| && CategoryLabel(logs[i], supports) == c)
      && Distinct(Keys(r))
      && forall v :: WithCount(r, v) == WithCount(Tally(CategoryLabels(logs, supports)), v)
  {
    var ls := CategoryLabels(logs, supports);
    LabelCounts(ls);
    assert forall c :: c in ls <==> exists i :: 0 <= i < |logs| && CategoryLabel(logs[i], supports) == c;
  }

  /** The sorted tally of any list of labels. */
  lemma LabelCounts(ls: seq<string>)
    ensures var r := SortByCount(Tally(ls));
      && (ls == [] ==> r == [])
      && Sum(r) == |ls|
      && ByCountDescending(r)
      && (forall i :: 0 <= i < |r| ==> r[i].1 == Count(ls, r[i].0) && r[i].1 > 0)
      && (forall c :: c in Keys(r) <==> c in ls)
      && Distinct(Keys(r))
      && forall v :: WithCount(r, v) == WithCount(Tally(ls), v)
  {
    var t := Tally(ls);
    var r := SortByCount(t);
    SortByCountFacts(t);
    TallySum(ls);
    PermutedTally(ls, r);
    if ls == [] {
      assert multiset(r) == multiset{};
    }
  }

  // ---------------------------------------------------------------- group_logs_by_week

  /** `date.weekday()`: 0 for Monday through 6 for Sunday. */
  function Weekday(d: Day): (r: nat)
    ensures r < 7
  {
    (d + 6) % 7
  }

  /** `dt - timedelta(days=dt.weekday())`: the Monday of the week. */
  function Monday(d: Day): (r: Day)
    ensures Weekday(r) == 0 && r <= d < r + 7
  {
    d - Weekday(d)
  }

  /** The Monday of every dated log, in order; undated logs are skipped. */
  function WeekKeys(logs: seq<ChartLog>): seq<Day>
  {
    if logs == [] then []
    else
      var last := logs[|logs| - 1];
      WeekKeys(logs[..|logs| - 1]) + (if last.createdAt.Some? then [Monday(last.createdAt.value)] else [])
  }

  function Dated(logs: seq<ChartLog>): nat
  {
    if logs == [] then 0
    else Dated(logs[..|logs| - 1]) + (if logs[|logs| - 1].createdAt.Some? then 1 else 0)
  }

  predicate ByWeekAscending(s: seq<(Day, nat)>)
  {
    forall i, j :: 0 <= i < j < |s| ==> s[i].0 < s[j].0
  }

  /** One step of `sorted(buckets)`: `x` goes before the first later week. */
  function InsertByWeek(s: seq<(Day, nat)>, x: (Day, nat)): seq<(Day, nat)>
  {
    if s == [] || x.0 < s[0].0 then [x] + s else [s[0]] + InsertByWeek(s[1..], x)
  }

  function SortByWeek(t: seq<(Day, nat)>): seq<(Day, nat)>
  {
    if t == [] then [] else InsertByWeek(SortByWeek(t[..|t| - 1]), t[|t| - 1])
  }

  lemma {:induction false} InsertByWeekPermutes(s: seq<(Day, nat)>, x: (Day, nat))
    ensures multiset(InsertByWeek(s, x)) == multiset(s) + multiset{x}
    ensures Sum(InsertByWeek(s, x)) == Sum(s) + x.1
  {
    if s != [] && x.0 >= s[0].0 {
      InsertByWeekPermutes(s[1..], x);
      assert s == [s[0]] + s[1..];
      assert InsertByWeek(s, x)[1..] == InsertByWeek(s[1..], x);
    }
  }

  lemma {:induction false} InsertByWeekSorted(s: seq<(Day, nat)>, x: (Day, nat))
    requires ByWeekAscending(s)
    requires forall i :: 0 <= i < |s| ==> s[i].0 != x.0
    ensures ByWeekAscending(InsertByWeek(s, x))
  {
    if s != [] && x.0 >= s[0].0 {
      InsertByWeekSorted(s[1..], x);
      InsertByWeekAbove(s[1..], x, s[0].0);
      var rest := InsertByWeek(s[1..], x);
      assert InsertByWeek(s, x) == [s[0]] + rest;
    }
  }

  /** Inserting keeps a strict lower bound on the weeks. */
  lemma {:induction false} InsertByWeekAbove(s: seq<(Day, nat)>, x: (Day, nat), lo: int)
    requires lo < x.0 && forall i :: 0 <= i < |s| ==> lo < s[i].0
    ensures forall j :: 0 <= j < |InsertByWeek(s, x)| ==> lo < InsertByWeek(s, x)[j].0
  {
    if s != [] && x.0 >= s[0].0 {
      InsertByWeekAbove(s[1..], x, lo);
      assert InsertByWeek(s, x) == [s[0]] + InsertByWeek(s[1..], x);
    }
  }

  lemma {:induction false} SortByWeekFacts(t: seq<(Day, nat)>)
    requires Distinct(Keys(t))
    ensures ByWeekAscending(SortByWeek(t))
    ensures multiset(SortByWeek(t)) == multiset(t)
    ensures Sum(SortByWeek(t)) == Sum(t)
  {
    if t != [] {
      var init, x := t[..|t| - 1], t[|t| - 1];
      assert t == init + [x];
      assert Keys(init) == Keys(t)[..|t| - 1];
      SortByWeekFacts(init);
      var s := SortByWeek(init);
      forall i | 0 <= i < |s| ensures s[i].0 != x.0 {
        assert s[i] in multiset(init);
        var k :| 0 <= k < |init| && init[k] == s[i];
        assert Keys(t)[k] != Keys(t)[|t| - 1];
      }
      InsertByWeekSorted(s, x);
      InsertByWeekPermutes(s, x);
      SumSnoc(init, x);
    }
  }

  /** What `group_logs_by_week` returns, before the week labels are
      formatted: one entry per week, in week order. */
  function ByWeek(logs: seq<ChartLog>): seq<(Day, nat)>
  {
    SortByWeek(Tally(WeekKeys(logs)))
  }

  lemma WeekKeysSnoc(logs: seq<ChartLog>, i: nat)
    requires i < |logs|
    ensures WeekKeys(logs[..i + 1]) == WeekKeys(logs[..i])
      + (if logs[i].createdAt.Some? then [Monday(logs[i].createdAt.value)] else [])
  {
    assert logs[..i + 1][..i] == logs[..i];
  }

  lemma WeekStep(logs: seq<ChartLog>, i: nat)
    requires i < |logs|
    ensures Tally(WeekKeys(logs[..i + 1])) == if logs[i].createdAt.Some?
      then Bump(Tally(WeekKeys(logs[..i])), Monday(logs[i].createdAt.value))
      else Tally(WeekKeys(logs[..i]))
  {
    WeekKeysSnoc(logs, i);
    if logs[i].createdAt.Some? {
      TallySnoc(WeekKeys(logs[..i]), Monday(logs[i].createdAt.value));
    } else {
      assert WeekKeys(logs[..i + 1]) == WeekKeys(logs[..i]);
    }
  }

  /** `group_logs_by_week(logs)`. */
  method GroupByWeek(logs: seq<ChartLog>) returns (r: seq<(Day, nat)>)
    ensures r == ByWeek(logs)
  {
    if logs == [] {
      return [];
    }
    var buckets: seq<(Day, nat)> := [];
    for i := 0 to |logs|
      invariant buckets == Tally(WeekKeys(logs[..i]))
    {
      var dt := logs[i].createdAt;
      WeekStep(logs, i);
      if dt.Some? {
        buckets := Bump(buckets, Monday(dt.value));
      }
    }
    assert logs[..|logs|] == logs;
    r := SortByWeek(buckets);
  }

  lemma {:induction false} WeekKeysFacts(logs: seq<ChartLog>)
    ensures |WeekKeys(logs)| == Dated(logs)
    ensures forall w :: w in WeekKeys(logs) <==>
      exists i :: 0 <= i < |logs| && logs[i].createdAt.Some? && Monday(logs[i].createdAt.value) == w
  {
    if logs != [] {
      var init := logs[..|logs| - 1];
      WeekKeysFacts(init);
      assert forall i :: 0 <= i < |init| ==> init[i] == logs[i];
    }
  }

  /** Every dated log is counted once, under the Monday of its week; undated
      logs are skipped; the weeks come out in increasing order, each once. */
  lemma WeekCounts(logs: seq<ChartLog>)
    ensures var r := ByWeek(logs);
      && Sum(r) == Dated(logs)
      && ByWeekAscending(r)
      && (forall i :: 0 <= i < |r| ==> Weekday(r[i].0) == 0 && r[i].1 == Count(WeekKeys(logs), r[i].0) && r[i].1 > 0)
      && forall w :: w in Keys(r) <==>
           exists i :: 0 <= i < |logs| && logs[i].createdAt.Some? && Monday(logs[i].createdAt.value) == w
  {
    var ks := WeekKeys(logs);
    var r := ByWeek(logs);
    WeekKeysFacts(logs);
    SortByWeekFacts(Tally(ks));
    TallySum(ks);
    PermutedTally(ks, r);
    forall i | 0 <= i < |r| ensures Weekday(r[i].0) == 0 {
      assert Keys(r)[i] in ks;
    }
  }
}

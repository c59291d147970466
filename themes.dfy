/** The two keyword tables of the privacy aggregator and `_generalise`, which
    turns a strength or a hope into a broad theme label.

    Every table pattern is a case-insensitive, unanchored alternation. An
    alternative is a run of literal characters, optionally with `.?` (at most
    one character other than a newline) or an optional group such as
    `(ory)?`. The tables are held as data in exactly the order of the source. */
module Themes {
  import opened Text
  import opened Py

  datatype Piece =
    | Ch(c: char)      // one literal character, compared case-insensitively
    | AnyOpt           // `.?`
    | Opt(s: string)   // `(s)?`

  type Alt = seq<Piece>

  datatype Entry = Entry(alts: seq<Alt>, theme: string)

  /** A literal alternative. */
  function Lit(w: string): (a: Alt)
    ensures |a| == |w| && forall k :: 0 <= k < |w| ==> a[k] == Ch(w[k])
  {
    seq(|w|, k requires 0 <= k < |w| => Ch(w[k]))
  }

  /** Case-insensitive character equality under ASCII case folding. */
  predicate SameFold(a: char, b: char)
  {
    LowerChar(a) == LowerChar(b)
  }

  /** `s` occurs case-insensitively in `t` at position `i`. */
  predicate FoldedAt(s: string, t: string, i: nat)
  {
    i + |s| <= |t| && forall k :: 0 <= k < |s| ==> SameFold(t[i + k], s[k])
  }

  /** Whether the alternative `a` matches some stretch of `t` that starts at
      position `i` (a regular-expression match with backtracking: every way
      of taking or skipping an optional piece is tried). */
  predicate AltMatchesAt(a: Alt, t: string, i: nat)
    requires i <= |t|
    decreases |a|
  {
    if a == [] then true
    else match a[0]
      case Ch(c) =>
        i < |t| && SameFold(t[i], c) && AltMatchesAt(a[1..], t, i + 1)
      case AnyOpt =>
        AltMatchesAt(a[1..], t, i)
        || (i < |t| && t[i] != '\n' && AltMatchesAt(a[1..], t, i + 1))
      case Opt(s) =>
        (FoldedAt(s, t, i) && AltMatchesAt(a[1..], t, i + |s|))
        || AltMatchesAt(a[1..], t, i)
  }

  /** What `re.search(pattern, t)` decides: some alternative matches at some
      position. */
  ghost predicate Occurs(alts: seq<Alt>, t: string)
  {
    exists k, i: nat :: 0 <= k < |alts| && i <= |t| && AltMatchesAt(alts[k], t, i)
  }

  function AnyAltAt(alts: seq<Alt>, t: string, i: nat): (r: bool)
    requires i <= |t|
    ensures r <==> exists k :: 0 <= k < |alts| && AltMatchesAt(alts[k], t, i)
  {
    if alts == [] then false
    else if AltMatchesAt(alts[0], t, i) then true
    else
      assert forall k :: 1 <= k < |alts| ==> alts[1..][k - 1] == alts[k];
      AnyAltAt(alts[1..], t, i)
  }

  /** Some alternative matches at position `i` or later. */
  ghost predicate OccursFrom(alts: seq<Alt>, t: string, i: nat)
  {
    exists k, j: nat :: 0 <= k < |alts| && i <= j <= |t| && AltMatchesAt(alts[k], t, j)
  }

  function SearchFrom(alts: seq<Alt>, t: string, i: nat): (r: bool)
    requires i <= |t|
    ensures r <==> OccursFrom(alts, t, i)
    decreases |t| - i
  {
    if AnyAltAt(alts, t, i) then
      MatchHere(alts, t, i);
      true
    else if i == |t| then false
    else
      MatchLater(alts, t, i);
      SearchFrom(alts, t, i + 1)
  }

  lemma MatchHere(alts: seq<Alt>, t: string, i: nat)
    requires i <= |t|
    requires exists k :: 0 <= k < |alts| && AltMatchesAt(alts[k], t, i)
    ensures OccursFrom(alts, t, i)
  {
    var k :| 0 <= k < |alts| && AltMatchesAt(alts[k], t, i);
    assert i <= i <= |t| && AltMatchesAt(alts[k], t, i);
  }

  lemma MatchLater(alts: seq<Alt>, t: string, i: nat)
    requires i < |t|
    requires forall k :: 0 <= k < |alts| ==> !AltMatchesAt(alts[k], t, i)
    ensures OccursFrom(alts, t, i) <==> OccursFrom(alts, t, i + 1)
  {
    if OccursFrom(alts, t, i) {
      var k, j: nat :| 0 <= k < |alts| && i <= j <= |t| && AltMatchesAt(alts[k], t, j);
      assert j != i;
    }
  }

  /** `re.search(pattern, t) is not None`, scanning the start position from
      left to right. */
  function Search(alts: seq<Alt>, t: string): (r: bool)
    ensures r <==> Occurs(alts, t)
  {
    assert OccursFrom(alts, t, 0) <==> Occurs(alts, t);
    SearchFrom(alts, t, 0)
  }

  // ---------------------------------------------------------------- tables

  /** `_STRENGTH_THEME_MAP`. */
  function StrengthTable(): seq<Entry>
  {
    [ Entry([Lit("memory"), Lit("recall"), Lit("remember")], "Strong memory skills"),
      Entry([Lit("audit") + [Opt("ory")], Lit("listen"), Lit("hear")], "Strong auditory processing"),
      Entry([Lit("visual"), Lit("see"), Lit("observ"), Lit("notic")], "Visual awareness"),
      Entry([Lit("creative"), Lit("art"), Lit("music"), Lit("draw"), Lit("paint"), Lit("design")],
            "Creative expression"),
      Entry([Lit("social"), Lit("friend"), Lit("peer"), Lit("communicat"), Lit("collaborat")],
            "Social engagement"),
      Entry([Lit("technolog"), Lit("comput"), Lit("digital"), Lit("software"), Lit("device")],
            "Technology proficiency"),
      Entry([Lit("read"), Lit("liter"), Lit("writ"), Lit("story"), Lit("book"), Lit("narrat")],
            "Literacy strengths"),
      Entry([Lit("math"), Lit("number"), Lit("calculat"), Lit("logic"), Lit("quantit")],
            "Mathematical thinking"),
      Entry([Lit("organiz"), Lit("plan"), Lit("schedul"), Lit("manag")], "Organisational skills"),
      Entry([Lit("persist"), Lit("determin"), Lit("resilient"), Lit("motivat"), Lit("driven")],
            "Persistence and motivation"),
      Entry([Lit("advocate"), Lit("self-advocate"), Lit("voice"), Lit("speak up")], "Self-advocacy"),
      Entry([Lit("problem") + [AnyOpt] + Lit("solv"), Lit("analyt"), Lit("critical")],
            "Analytical thinking"),
      Entry([Lit("curio"), Lit("question"), Lit("explor"), Lit("investigat")], "Intellectual curiosity"),
      Entry([Lit("empathy"), Lit("caring"), Lit("kind"), Lit("compassion")], "Empathy and compassion"),
      Entry([Lit("leader"), Lit("mentor"), Lit("initiative")], "Leadership"),
      Entry([Lit("adapt"), Lit("flexible"), Lit("adjust")], "Adaptability"),
      Entry([Lit("focus"), Lit("concentrat"), Lit("attent")], "Focused attention"),
      Entry([Lit("kinesthet"), Lit("movement"), Lit("physical"), Lit("motor"), Lit("sport"), Lit("athlet")],
            "Physical/kinaesthetic strengths"),
      Entry([Lit("humor"), Lit("funny"), Lit("joke")], "Sense of humour"),
      Entry([Lit("science"), Lit("biology"), Lit("chemistry"), Lit("physics"), Lit("lab")],
            "Science aptitude")
    ]
  }

  /** `_GOAL_THEME_MAP`. */
  function GoalTable(): seq<Entry>
  {
    [ Entry([Lit("post") + [AnyOpt] + Lit("secondary"), Lit("college"), Lit("university"),
             Lit("higher") + [AnyOpt] + Lit("ed")], "Post-secondary education"),
      Entry([Lit("career"), Lit("job"), Lit("employ"), Lit("work"), Lit("profession")],
            "Career aspirations"),
      Entry([Lit("independen"), Lit("self") + [AnyOpt] + Lit("suffic"), Lit("autonomy")], "Independence"),
      Entry([Lit("communit"), Lit("belong"), Lit("inclus"), Lit("social")], "Community participation"),
      Entry([Lit("technolog"), Lit("comput"), Lit("STEM"), Lit("engineer")], "Technology/STEM interests"),
      Entry([Lit("art"), Lit("music"), Lit("creativ"), Lit("perform"), Lit("theater"), Lit("theatre")],
            "Creative pursuits"),
      Entry([Lit("advocate"), Lit("rights"), Lit("justice"), Lit("activis")], "Advocacy and rights"),
      Entry([Lit("travel"), Lit("explore"), Lit("abroad")], "Exploration and travel"),
      Entry([Lit("health"), Lit("wellbeing"), Lit("fitness")], "Health and wellbeing"),
      Entry([Lit("mentor"), Lit("teach"), Lit("help others")], "Mentoring others")
    ]
  }

  // ---------------------------------------------------------------- _generalise

  /** The index of the first table entry whose pattern occurs in `t`; the
      loop of `_generalise` returns as soon as one matches. */
  function FirstMatch(table: seq<Entry>, t: string): (r: Option<nat>)
    ensures r.Some? ==> r.value < |table| && Occurs(table[r.value].alts, t)
    ensures r.Some? ==> forall j :: 0 <= j < r.value ==> !Occurs(table[j].alts, t)
    ensures r.None? ==> forall j :: 0 <= j < |table| ==> !Occurs(table[j].alts, t)
  {
    if table == [] then None
    else if Search(table[0].alts, t) then Some(0)
    else
      match FirstMatch(table[1..], t)
      case None => None
      case Some(k) => Some(k + 1)
  }

  /** The fallback label: the first five words joined by single spaces, with
      "..." appended when there were more than five. */
  function Abbreviate(t: string): string
  {
    var ws := Words(t);
    Join(" ", if |ws| <= 5 then ws else ws[..5]) + (if |ws| > 5 then "..." else "")
  }

  /** `_generalise(t, table)`. */
  function Generalise(t: string, table: seq<Entry>): (r: string)
    ensures (exists j :: 0 <= j < |table| && Occurs(table[j].alts, t)) ==>
      exists k :: 0 <= k < |table| && Occurs(table[k].alts, t) && r == table[k].theme
        && forall j :: 0 <= j < k ==> !Occurs(table[j].alts, t)
    ensures (forall j :: 0 <= j < |table| ==> !Occurs(table[j].alts, t)) ==> r == Abbreviate(t)
  {
    match FirstMatch(table, t)
    case Some(k) => table[k].theme
    case None => Abbreviate(t)
  }

  // ---------------------------------------------------------------- lemmas

  /** A literal alternative matches exactly where its text occurs, ignoring
      case. */
  lemma {:induction false} LitMatchesAt(w: string, t: string, i: nat)
    requires i <= |t|
    ensures AltMatchesAt(Lit(w), t, i) <==> FoldedAt(w, t, i)
    decreases |w|
  {
    if w != [] {
      assert Lit(w)[1..] == Lit(w[1..]);
      if i < |t| {
        LitMatchesAt(w[1..], t, i + 1);
        if FoldedAt(w[1..], t, i + 1) && SameFold(t[i], w[0]) {
          forall k | 0 <= k < |w| ensures SameFold(t[i + k], w[k]) {
            if k > 0 { assert w[1..][k - 1] == w[k]; }
          }
        }
        if FoldedAt(w, t, i) {
          forall k | 0 <= k < |w| - 1 ensures SameFold(t[i + 1 + k], w[1..][k]) {
            assert SameFold(t[i + (k + 1)], w[k + 1]);
          }
        }
      }
    }
  }

  /** A literal pattern is found in `t` exactly when its text occurs somewhere
      in `t`, ignoring case: the search is not anchored to word starts. */
  lemma LitOccurs(w: string, t: string, i: nat)
    requires FoldedAt(w, t, i)
    ensures Occurs([Lit(w)], t)
  {
    LitMatchesAt(w, t, i);
    assert AltMatchesAt([Lit(w)][0], t, i);
  }

  /** A trailing optional group never decides whether a search succeeds, so
      `audit(ory)?` finds exactly the texts that `audit` finds. */
  lemma {:induction false} TrailingOptIrrelevant(a: Alt, s: string, t: string, i: nat)
    requires i <= |t|
    ensures AltMatchesAt(a + [Opt(s)], t, i) <==> AltMatchesAt(a, t, i)
    decreases |a|
  {
    if a == [] {
      assert ([] + [Opt(s)])[1..] == [];
    } else {
      assert (a + [Opt(s)])[1..] == a[1..] + [Opt(s)];
      assert (a + [Opt(s)])[0] == a[0];
      match a[0]
      case Ch(c) =>
        if i < |t| { TrailingOptIrrelevant(a[1..], s, t, i + 1); }
      case AnyOpt =>
        TrailingOptIrrelevant(a[1..], s, t, i);
        if i < |t| { TrailingOptIrrelevant(a[1..], s, t, i + 1); }
      case Opt(u) =>
        TrailingOptIrrelevant(a[1..], s, t, i);
        if FoldedAt(u, t, i) { TrailingOptIrrelevant(a[1..], s, t, i + |u|); }
    }
  }

  /** Unanchored matching: "art" (Creative pursuits) hits "start". */
  lemma ArtHitsStart()
    ensures Occurs(GoalTable()[5].alts, "start")
  {
    var alts := GoalTable()[5].alts;
    assert FoldedAt("art", "start", 2);
    LitMatchesAt("art", "start", 2);
    assert AltMatchesAt(alts[0], "start", 2);
  }

  /** Case folding plus unanchored matching: "STEM" hits "system". */
  lemma StemHitsSystem()
    ensures Occurs(GoalTable()[4].alts, "system")
  {
    var alts := GoalTable()[4].alts;
    assert FoldedAt("STEM", "system", 2);
    LitMatchesAt("STEM", "system", 2);
    assert AltMatchesAt(alts[2], "system", 2);
  }

  /** First match wins: any strength that mentions both memory and audition
      matches the auditory entry too, yet is reported only as a memory skill,
      because the memory entry comes first in the table. */
  lemma MemoryAndAudit(t: string, m: nat, a: nat)
    requires FoldedAt("memory", t, m) && FoldedAt("audit", t, a)
    ensures Occurs(StrengthTable()[1].alts, t)
    ensures Generalise(t, StrengthTable()) == "Strong memory skills"
  {
    var table := StrengthTable();
    assert table[0] == Entry([Lit("memory"), Lit("recall"), Lit("remember")], "Strong memory skills");
    assert table[1].alts[0] == Lit("audit") + [Opt("ory")];
    LitMatchesAt("memory", t, m);
    LitMatchesAt("audit", t, a);
    TrailingOptIrrelevant(Lit("audit"), "ory", t, a);
    assert AltMatchesAt(table[1].alts[0], t, a);
    FirstEntryWins(table, t, m);
  }

  lemma FirstEntryWins(table: seq<Entry>, t: string, i: nat)
    requires |table| > 0 && |table[0].alts| > 0 && i <= |t|
    requires AltMatchesAt(table[0].alts[0], t, i)
    ensures Generalise(t, table) == table[0].theme
  {
    assert Occurs(table[0].alts, t);
  }

  /** Texts that match nothing and have at most five words reach the
      teacher-facing themes verbatim (after normalising white space). */
  lemma VerbatimFallback(ws: seq<string>, table: seq<Entry>)
    requires |ws| <= 5
    requires forall k :: 0 <= k < |ws| ==> ws[k] != [] && NoSpace(ws[k])
    requires forall j :: 0 <= j < |table| ==> !Occurs(table[j].alts, Join(" ", ws))
    ensures Generalise(Join(" ", ws), table) == Join(" ", ws)
  {
    var t := Join(" ", ws);
    assert FirstMatch(table, t).None?;
    WordsOfJoin(ws);
    AbbreviateShort(t);
  }

  lemma AbbreviateShort(t: string)
    requires |Words(t)| <= 5
    ensures Abbreviate(t) == Join(" ", Words(t))
  {
    var j := Join(" ", Words(t));
    assert j + "" == j;
  }

  /** Longer unmatched texts are cut to their first five words plus "...". */
  lemma TruncatedFallback(ws: seq<string>, table: seq<Entry>)
    requires |ws| > 5
    requires forall k :: 0 <= k < |ws| ==> ws[k] != [] && NoSpace(ws[k])
    requires forall j :: 0 <= j < |table| ==> !Occurs(table[j].alts, Join(" ", ws))
    ensures Generalise(Join(" ", ws), table) == Join(" ", ws[..5]) + "..."
  {
    var t := Join(" ", ws);
    assert FirstMatch(table, t).None?;
    WordsOfJoin(ws);
  }
}

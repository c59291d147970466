# AccessTwin core, modelled in Dafny

AccessTwin is a desktop application. Students with disabilities and their
teachers use it to record accommodations ("supports"), log how well they
work, and ask an AI coach for advice. Its core is the privacy aggregator.
The aggregator turns one student's profile, support entries and tracking
logs into two tiers:
- a teacher-safe summary: first name, category counts, broad strength and
  goal themes, UDL/POUR label sets, active count and effectiveness means;
- a confidential text block meant for the AI coach only.

Around the aggregator sit several smaller pieces, all modelled here:
- the registration-form validators;
- the log-analytics helpers behind the charts;
- the accessibility-settings manager, with its clamping setters,
  change-only notifications, colour overlay and save/load round trip;
- the authentication manager over a store of user records;
- the AI-backend configuration;
- the markdown-to-Word line reader of the teacher export;
- the state kept inside several widgets: the dictation button, the
  cursor trail, the tutorial dialog, the rating widget, the sidebar, the
  breadcrumb bar and the dialog tab trap;
- the speech-to-text settings loader.

The project is layered as follows:
- Shared modules model the Python behaviour the code relies on. `Py`
  holds options and exceptions. `Text` holds ASCII case folding,
  `strip`, `split` and integer formatting. `Order` holds `sorted` over
  strings. `Counting` holds counting into an insertion-ordered dict.
  `PyJson` holds the dict a decoded JSON object becomes (a repeated key
  is kept once, at its first place, with its last value) and `json.dumps`
  with its default ASCII escaping.
- Each source file then has its own module.
- Code that only computes becomes functions and lemmas.
- Code that updates fields becomes a class. Its methods `modifies` the
  object and state the whole new state.
- Qt signals become an emission log or counter.
- Calls into code outside the model (the JSON parser, the password
  hasher, the speech engine, the language-model clients) become
  parameters.

## Model

| member | source | states |
|---|---|---|
| Aggregator.ExtractText | ai/privacy_aggregator.py:47-49 | a dict item yields its "text" value and raises KeyError exactly when it has none; any other item yields its own string form unchanged |
| Aggregator.ParseJsonField | ai/privacy_aggregator.py:62-69 | a missing field gives the empty object; a field that decodes gives exactly the decoded value; one that does not decode gives the empty object |
| Aggregator.ThemesOf | ai/privacy_aggregator.py:128-133 | one theme per item, in order, each the generalisation of that item's text; the first raising item stops the scan |
| Aggregator.ValueLabels | ai/privacy_aggregator.py:105-119 | a string value contributes itself and a list its elements; other values contribute nothing; adding a list with an unhashable element raises TypeError, and only then |
| Aggregator.SortLabels | ai/privacy_aggregator.py:142-143 | `sorted` over a label set succeeds exactly when the labels are all strings, all `int`s and `bool`s, or a lone `None`; any other mixture raises TypeError; the result ascends in Python's order (strings by code point, numbers by value) and holds only labels of the set |
| Aggregator.SortLabelsKeepsFirst | ai/privacy_aggregator.py:95-143 | the sorted labels are exactly the labels the set kept: for every label added, the first label equal to it (so `True` added before `1` is returned as `True`), and nothing else |
| Aggregator.SortLabelsNumbers | ai/privacy_aggregator.py:142 | `sorted` of the numbers 2 and 1 is `[1, 2]` |
| Aggregator.SortLabelsNone | ai/privacy_aggregator.py:142 | `sorted` of a set holding only `None` is `[None]` |
| Aggregator.SortLabelsTrueBeforeOne | ai/privacy_aggregator.py:108 | adding `True` and then `1` keeps `True` only |
| Aggregator.SortLabelsMixed | ai/privacy_aggregator.py:142 | a string label beside a number label raises TypeError |
| Aggregator.LabelEqIsPyEq | ai/privacy_aggregator.py:108 | on labels (never lists or dicts), the set's equality is Python's `==` |
| Aggregator.FirstEqualIndex | ai/privacy_aggregator.py:108 | the first label equal to a given one: every label before it differs, and there is one whenever the given label was added |
| Aggregator.FirstEqualIndexSame | ai/privacy_aggregator.py:108 | equal labels have the same first equal label |
| Aggregator.InsertNumber | ai/privacy_aggregator.py:108 | adding a number to the ascending numbers held adds exactly it, unless an equal number is already held, and keeps them ascending |
| Aggregator.SortNumbers | ai/privacy_aggregator.py:142 | the sorted numbers ascend by value, come from the labels, and take every value the labels take |
| Aggregator.SortNumbersKeepsFirst | ai/privacy_aggregator.py:108 | every sorted number is the first label of its value |
| Aggregator.Categories | ai/privacy_aggregator.py:91 | the category of each support, in input order |
| Aggregator.RatedCategoriesMembers | ai/privacy_aggregator.py:100-102 | a category is counted towards the effectiveness means exactly when some support of that category carries a rating |
| Aggregator.ActiveCount | ai/privacy_aggregator.py:141 | the active count is at most the number of supports; it equals that number iff every support is "active", and is 0 iff none is |
| Aggregator.ActiveCountIsNumberActive | ai/privacy_aggregator.py:141 | the active count is the number of positions whose support has status "active" |
| Aggregator.FirstName | ai/privacy_aggregator.py:136 | an empty name gives "Student"; a whitespace-only name raises IndexError; otherwise the result is `split()[0]`: a non-empty run without white space at the start of the name after leading blanks, ending at a blank or at the end |
| Aggregator.ItemLines | ai/privacy_aggregator.py:151-153 | one "  - text" line per item, in order; the call fails exactly when some item has no text |
| Aggregator.EntryLines | ai/privacy_aggregator.py:156-164 | a support entry writes its summary line, then a "UDL:" line with the dumped mapping exactly when that mapping is truthy, then a "POUR:" line likewise, and nothing else; a dumped object is its decoded dict, one entry per key |
| Aggregator.SupportLines | ai/privacy_aggregator.py:155-164 | between one and three lines per support entry |
| Aggregator.SupportLinesAppend | ai/privacy_aggregator.py:155-164 | the lines of two runs of supports are the lines of the first run followed by those of the second |
| Aggregator.Take | ai/privacy_aggregator.py:183 | `s[:200]`: a prefix of the note, of exactly 200 characters when the note is longer and the whole note otherwise |
| Aggregator.LogLines | ai/privacy_aggregator.py:180-183 | one line per tracking log, in order |
| Aggregator.Recent | ai/privacy_aggregator.py:180 | `tracking_logs[:10]`: the first min(n, 10) logs |
| Aggregator.SupportLabelsErr | ai/privacy_aggregator.py:104-119 | once reading a mapping raises, the outcome of the label scan is that error, whatever follows |
| Aggregator.ThemesErr | ai/privacy_aggregator.py:128-133 | once an item raises, the theme set is that error, whatever follows |
| Aggregator.ItemLinesErr | ai/privacy_aggregator.py:151-153 | once an item raises, the context build is that error, whatever follows |
| Aggregator.ScanSupports | ai/privacy_aggregator.py:98-119 | the loop over supports. It fails exactly when a mapping's decoded dict holds an unhashable list element under one of its keys, with that error. Otherwise the counts, the rated counts, the rating totals and the UDL/POUR labels are those of all supports, each mapping read through its dict (the last value of a repeated key) |
| Aggregator.Summarise | ai/privacy_aggregator.py:121-126 | the effectiveness summary is the mean rating of every rated category, in first-rated order |
| Aggregator.ThemeSet | ai/privacy_aggregator.py:128-133 | the sorted, duplicate-free set of the items' themes, or the error of the first item that raises |
| Aggregator.BuildTeacherSafe | ai/privacy_aggregator.py:88-145 | builds the teacher-safe record over the given keyword tables as specified by its function, including every error path; the UDL and POUR lists come from each mapping's decoded dict |
| Aggregator.AppendItemLines | ai/privacy_aggregator.py:151-176 | appending one section's item lines to the context, or the error of the first item without text |
| Aggregator.AppendSupportLines | ai/privacy_aggregator.py:155-164 | appending the support-entry lines, in input order, each mapping dumped as its decoded dict |
| Aggregator.AppendLogLines | ai/privacy_aggregator.py:180-183 | appending one line per log, in order |
| Aggregator.AppendTrackingLines | ai/privacy_aggregator.py:178-183 | the tracking section, which is written only for a non-empty log list |
| Aggregator.BuildContext | ai/privacy_aggregator.py:148-185 | the confidential context lines, built by successive appends as specified by their function, with the UDL and POUR lines dumping each mapping's decoded dict |
| Aggregator.Aggregate | ai/privacy_aggregator.py:79-191 | the two tiers, as specified by their function over the module's own keyword tables; the first KeyError, IndexError or TypeError ends the call, and a TypeError comes only from a value a decoded dict keeps |
| Aggregator.AggregateOver | ai/privacy_aggregator.py:79-191 | the two tiers over any pair of keyword tables, as specified by their function, each mapping read through its decoded dict |
| Aggregator.ItemLabels | ai/privacy_aggregator.py:106-110 | the label loop over a dict's items; its only exception is TypeError |
| Aggregator.FieldLabels | ai/privacy_aggregator.py:106-119 | the label loop over `.items()` of the dict a decoded object becomes; its only exception is TypeError |
| Aggregator.UdlLabels | ai/privacy_aggregator.py:104-110 | a mapping that is not a dict adds no label; a dict adds its values' labels, and can raise only TypeError |
| Aggregator.PourLabels | ai/privacy_aggregator.py:112-119 | a mapping that is not a dict adds no label; a dict adds its keys and its values' labels, and can raise only TypeError |
| Aggregator.SupportLabels | ai/privacy_aggregator.py:98-119 | the UDL and POUR labels of all supports in loop order; the scan can raise only TypeError |
| Aggregator.TeacherSafeWith | ai/privacy_aggregator.py:88-145 | the teacher-safe record, or the first exception in source order (label scan, strengths, hopes, first name); its fields are stated by the AggregatorFacts lemmas |
| Aggregator.ContextOf | ai/privacy_aggregator.py:148-185 | the confidential context lines, or the first item without text; their frame and sections are stated by the AggregatorFacts lemmas |
| Aggregator.AggregateOf | ai/privacy_aggregator.py:79-191 | both tiers over the module's keyword tables, the teacher-safe tier first |
| AggregatorFacts.CategoryCounts | ai/privacy_aggregator.py:91-99 | the category counts sum to the number of supports; each is that category's number of supports; the keys come in first-seen order; the category list is the strictly sorted key set, which is exactly the categories present, whatever the keyword tables |
| AggregatorFacts.SortedThemes | ai/privacy_aggregator.py:128-133 | the theme list is sorted, duplicate-free, no longer than the item list, and holds exactly the items' themes |
| AggregatorFacts.ThemeLists | ai/privacy_aggregator.py:128-140 | strength themes and goal themes are strictly sorted, no more than their items, and exactly the themes of the strengths (hopes) under the strength (goal) table in use |
| AggregatorFacts.MissingTextRaises | ai/privacy_aggregator.py:49 | a strength or hope that is a dict without "text" makes the whole aggregation raise, whatever the keyword tables |
| AggregatorFacts.ThemesFail | ai/privacy_aggregator.py:128-130 | one raising item makes the theme set raise |
| AggregatorFacts.SummaryOfPositive | ai/privacy_aggregator.py:121-126 | for positive counts, each summary entry is the category's rating total divided by its count |
| AggregatorFacts.EffectivenessMeans | ai/privacy_aggregator.py:121-126 | one summary entry per rated category, in first-rated order, each the exact mean of that category's ratings |
| AggregatorFacts.EffectivenessKeys | ai/privacy_aggregator.py:121-126 | the summary has a key exactly for the categories with at least one rating, each key once |
| AggregatorFacts.ItemLabelsMembers | ai/privacy_aggregator.py:106-119 | a dict's labels are exactly its values' labels, plus its keys when keys are taken; the loop fails exactly when some value fails |
| AggregatorFacts.FieldLabelsMembers | ai/privacy_aggregator.py:104-119 | a decoded object's labels come from the last field of each key only: its value's labels, plus its key when keys are taken; the loop fails exactly when the last value of some key fails, so a shadowed field neither adds a label nor raises |
| AggregatorFacts.ItemLabelsOfBooleans | ai/privacy_aggregator.py:106-110 | a dict whose values are all booleans adds no UDL label |
| AggregatorFacts.UdlIgnoresBooleans | ai/privacy_aggregator.py:104-110 | a UDL mapping whose values are all booleans contributes no label |
| AggregatorFacts.ItemLabelsSplit | ai/privacy_aggregator.py:112-119 | a dict's labels with keys are its labels without keys plus its keys |
| AggregatorFacts.PourAddsKeys | ai/privacy_aggregator.py:112-119 | POUR labels are the UDL-style value labels plus every key of the mapping, and fail exactly when those do |
| AggregatorFacts.SupportLabelsMembers | ai/privacy_aggregator.py:104-119 | the UDL (resp. POUR) label set is exactly the union of the labels of each support's mapping |
| AggregatorFacts.UdlLabelsMembers | ai/privacy_aggregator.py:104-110 | the UDL label set is exactly the union of each support's UDL labels |
| AggregatorFacts.PourLabelsMembers | ai/privacy_aggregator.py:112-119 | the POUR label set is exactly the union of each support's POUR labels |
| AggregatorFacts.ItemsOfRepeatedKey | ai/privacy_aggregator.py:66 | an object holding one key twice decodes to the dict of its second value |
| AggregatorFacts.RepeatedKeyLabel | ai/privacy_aggregator.py:104-110 | `{"a": "x", "a": "y"}` adds the UDL label "y" alone |
| AggregatorFacts.RepeatedKeyDumps | ai/privacy_aggregator.py:159-161 | `{"a": "x", "a": "y"}` is printed as `{"a": "y"}` |
| AggregatorFacts.ShadowedListRaisesNothing | ai/privacy_aggregator.py:104-110 | `{"a": [[1]], "a": []}` raises nothing: the unhashable list is shadowed |
| AggregatorFacts.SupportLinesIndented | ai/privacy_aggregator.py:155-164 | every support-entry line is indented |
| AggregatorFacts.ItemLinesIndented | ai/privacy_aggregator.py:151-176 | every item line is indented |
| AggregatorFacts.ContextFrame | ai/privacy_aggregator.py:148-185 | the context starts with the confidential header, then the full-name line, then the strengths heading with one line per strength in order, then the supports heading; it ends with the closing line |
| AggregatorFacts.BodyLacksTracking | ai/privacy_aggregator.py:148-176 | without logs no tracking heading appears anywhere in the context body |
| AggregatorFacts.TrackingSection | ai/privacy_aggregator.py:178-183 | the tracking heading appears iff there are logs. It is followed by one line for each of the first min(n, 10) logs, in order, just before the closing line |
| AggregatorFacts.MappingLinesPrintable | ai/privacy_aggregator.py:159-164 | the UDL and POUR lines are printable ASCII, whatever the mapping holds |
| Themes.Lit | ai/privacy_aggregator.py:10-31 | a literal pattern word matches character by character |
| Themes.AnyAltAt | ai/privacy_aggregator.py:55 | some alternative of the pattern matches at the given position, and only then |
| Themes.SearchFrom | ai/privacy_aggregator.py:55 | scanning from a position finds a match iff one occurs at or after it |
| Themes.MatchHere | ai/privacy_aggregator.py:55 | a match at a position is an occurrence from it |
| Themes.MatchLater | ai/privacy_aggregator.py:55 | with no match at a position, an occurrence from there is one from the next position |
| Themes.Search | ai/privacy_aggregator.py:55 | `re.search` with IGNORECASE succeeds iff some alternative matches at some position of the text (unanchored) |
| Themes.FirstMatch | ai/privacy_aggregator.py:54-56 | the index of the first table entry whose pattern occurs in the text, with no earlier entry occurring; none exactly when no entry occurs |
| Themes.Generalise | ai/privacy_aggregator.py:52-59 | the theme of the first entry that occurs; with no entry occurring, the five-word abbreviation of the text |
| Themes.LitMatchesAt | ai/privacy_aggregator.py:55 | a literal matches at a position iff the text there equals it up to ASCII case |
| Themes.LitOccurs | ai/privacy_aggregator.py:55 | a literal found anywhere up to case is an occurrence |
| Themes.TrailingOptIrrelevant | ai/privacy_aggregator.py:12 | an optional suffix such as `(ory)?` at the end of an unanchored pattern never changes whether it matches |
| Themes.ArtHitsStart | ai/privacy_aggregator.py:39 | the arts goal pattern matches inside "start" |
| Themes.StemHitsSystem | ai/privacy_aggregator.py:38 | the STEM goal pattern matches inside "system" |
| Themes.MemoryAndAudit | ai/privacy_aggregator.py:11-12 | a text mentioning memory and audit is labelled with the memory theme, because the memory entry comes first |
| Themes.FirstEntryWins | ai/privacy_aggregator.py:54-56 | when the first entry matches, its theme is returned, whatever later entries match |
| Themes.Abbreviate | ai/privacy_aggregator.py:57-59 | the fallback for an unmatched text: its first five words, with an ellipsis when there were more; its output is stated by VerbatimFallback and AbbreviateShort |
| Themes.VerbatimFallback | ai/privacy_aggregator.py:57-59 | an unmatched text of at most five words reaches the teacher-safe tier verbatim |
| Themes.AbbreviateShort | ai/privacy_aggregator.py:58-59 | with at most five words, the abbreviation is the words joined by single spaces, with no ellipsis |
| Themes.TruncatedFallback | ai/privacy_aggregator.py:57-59 | an unmatched text of more than five words becomes its first five words followed by "..." |
| Text.Lower | models/auth.py:60 | ASCII lower-casing, character by character, length kept |
| Text.Title | ui/components/chart_utils.py:68 | `str.title`: upper case after a non-letter, lower case after a letter |
| Text.StripLeft | models/auth.py:60 | a suffix of the input that does not start with white space, and everything cut off before it is white space |
| Text.StripRight | models/auth.py:60 | a prefix of the input that does not end with white space, and everything cut off after it is white space |
| Text.Strip | ui/screens/teacher/export_page.py:653 | the slice of the input from its first non-space character to its last: everything outside it is white space, and it neither starts nor ends with white space |
| Text.StripBothEnds | ui/screens/teacher/export_page.py:653 | stripping the front and then the back leaves a slice of the input with only white space around it |
| Text.TrimmedSlice | ui/screens/teacher/export_page.py:653 | a prefix of a suffix, with white space cut off both ends, is a slice of the whole with only white space outside it |
| Text.WordPrefix | ai/privacy_aggregator.py:58 | the leading run of non-space characters |
| Text.Words | ai/privacy_aggregator.py:58 | `str.split()`: every word non-empty and free of white space |
| Text.WordsSkipsLeadingSpace | ai/privacy_aggregator.py:58 | leading white space does not change the words |
| Text.WordPrefixOfWord | ai/privacy_aggregator.py:58 | a word followed by white space or nothing is read back as that word |
| Text.WordsOfSpaced | ai/privacy_aggregator.py:58-59 | a word without spaces followed by a space and more text splits into that word followed by the words of the rest |
| Text.WordsOfJoin | ai/privacy_aggregator.py:58-59 | splitting words that were joined with single spaces gives them back |
| Text.SplitOn | ui/screens/teacher/export_page.py:652 | `str.split(sep)` always gives at least one part |
| Text.JoinConsFirst | ui/screens/teacher/export_page.py:652 | a character added to the first part adds it to the front of the joined string |
| Text.JoinSplitOn | ui/screens/teacher/export_page.py:652 | joining the parts of `s.split(sep)` with `sep` gives `s` back |
| Text.NatToString | ui/components/tutorial_dialog.py:524-526 | decimal digits only, and no leading zero |
| Text.DigitsValueOfNatToString | ui/screens/student/log_experience_page.py:138 | reading the decimal form of a number back gives the number |
| Order.LessIrreflexive | ai/privacy_aggregator.py:91 | string order is irreflexive |
| Order.LessTransitive | ai/privacy_aggregator.py:91 | string order is transitive |
| Order.LessTotal | ai/privacy_aggregator.py:91 | two different strings are ordered one way or the other |
| Order.LessAsymmetric | ai/privacy_aggregator.py:91 | string order is asymmetric |
| Order.InsertSorted | ai/privacy_aggregator.py:91 | inserting into a strictly sorted list keeps it strictly sorted, adds exactly the new element, and grows it only when the element is new |
| Order.SortedSet | ai/privacy_aggregator.py:128-133 | `sorted(set(xs))`: strictly ascending, with exactly the elements of `xs` |
| Order.ElemsOfStrictlySorted | ai/privacy_aggregator.py:91 | a strictly sorted list has no duplicates |
| Order.StrictlySortedUnique | ai/privacy_aggregator.py:91 | two strictly sorted lists with the same elements are equal |
| Counting.Bump | ai/privacy_aggregator.py:99 | `counts[k] += 1` on an insertion-ordered dict: an existing key keeps its place and gains one; a new key is appended with count 1; no other count changes |
| Counting.TallySnoc | ai/privacy_aggregator.py:98-99 | counting one more key is one bump |
| Counting.Tally | ai/privacy_aggregator.py:98-99 | the count dict never holds a key twice |
| Counting.FirstSeenElems | ai/privacy_aggregator.py:98-99 | the first-seen order lists every key exactly once |
| Counting.FirstSeenMember | ai/privacy_aggregator.py:98-99 | every key listed in first-seen order occurs in the input |
| Counting.FirstSeenOrder | ui/components/sidebar.py:87-96 | a key listed before another occurs in the input before every occurrence of the other |
| Counting.FirstSeenHead | ui/components/sidebar.py:87-96 | the first key listed is the input's first key |
| Counting.TallyKeys | ai/privacy_aggregator.py:98-99 | the count dict's keys come in first-seen order |
| Counting.CountSnoc | ai/privacy_aggregator.py:98-99 | one more occurrence counts one more |
| Counting.BumpCounts | ai/privacy_aggregator.py:98-99 | bumping keeps every count equal to the key's number of occurrences |
| Counting.TallyCounts | ai/privacy_aggregator.py:98-99 | every count is its key's number of occurrences |
| Counting.CountAbsent | ai/privacy_aggregator.py:98-99 | an absent key occurs zero times |
| Counting.SumSnoc | ai/privacy_aggregator.py:98-99 | appending an entry adds its count to the total |
| Counting.SumBump | ai/privacy_aggregator.py:98-99 | a bump adds one to the total |
| Counting.TallySum | ai/privacy_aggregator.py:98-99 | the counts sum to the number of keys counted |
| Counting.TallyPositive | ai/privacy_aggregator.py:98-99 | every count is positive |
| Counting.PermutedTally | ui/components/chart_utils.py:70-75 | any reordering of the counts keeps correct, positive counts and exactly the keys seen, each once |
| Counting.PermutedTallyCounts | ui/components/chart_utils.py:70-75 | any reordering of the counts keeps each count correct and positive |
| Counting.PermutedTallyKeys | ui/components/chart_utils.py:70-75 | any reordering of the counts keeps exactly the keys seen |
| Counting.DistinctOfPermutation | ui/components/chart_utils.py:70-75 | reordering keeps keys distinct |
| Counting.MultiplicityOfDistinct | ui/components/chart_utils.py:70-75 | an entry of a dict with distinct keys occurs once |
| PyJson.HexDigit | ai/privacy_aggregator.py:161 | hex digits are printable ASCII |
| PyJson.UnicodeEscape | ai/privacy_aggregator.py:161 | a `\uXXXX` escape is printable ASCII |
| PyJson.EscapeChar | ai/privacy_aggregator.py:161 | every character's `json.dumps` escape is printable ASCII |
| PyJson.EscapeString | ai/privacy_aggregator.py:161 | an escaped string is printable ASCII |
| PyJson.Quote | ai/privacy_aggregator.py:161 | a quoted string literal is printable ASCII |
| PyJson.PrintableAsciiConcat | ai/privacy_aggregator.py:161 | printable ASCII is closed under concatenation |
| PyJson.IntToStringPrintable | ai/privacy_aggregator.py:161 | integers print as printable ASCII |
| PyJson.DumpsPrintable | ai/privacy_aggregator.py:161 | `json.dumps` with its default `ensure_ascii` prints any value as printable ASCII |
| PyJson.DumpsItemsPrintable | ai/privacy_aggregator.py:161 | array items print as printable ASCII |
| PyJson.DumpsFieldsPrintable | ai/privacy_aggregator.py:164 | object fields print as printable ASCII |
| PyJson.Dumps | ai/privacy_aggregator.py:159-164 | `json.dumps` with separators ", " and ": ", an object written as its decoded dict; its output is stated by DumpsPrintable |
| PyJson.DumpsItems | ai/privacy_aggregator.py:159-164 | a list's elements dumped and joined by ", " |
| PyJson.DumpsFields | ai/privacy_aggregator.py:159-164 | a dict's items dumped as `"key": value` and joined by ", " |
| PyJson.LastIndex | ai/privacy_aggregator.py:66 | the position of the last field of a key that occurs |
| PyJson.Items | ai/privacy_aggregator.py:66 | the items of the dict `json.loads` builds from an object: every item is one of the object's fields |
| PyJson.ItemsOfFields | ai/privacy_aggregator.py:66 | the dict lists the keys in order of their first field, each item being the last field of its key |
| PyJson.ItemsHoldLast | ai/privacy_aggregator.py:66 | the last field of each key is an item of the dict |
| PyJson.ItemsAreLastFields | ai/privacy_aggregator.py:66 | the dict's items are exactly the last fields of their keys, with no key twice |
| PyJson.StoreFacts | ai/privacy_aggregator.py:66 | `d[key] = v` keeps a present key in place with the new value, and appends a new key |
| PyJson.LastOfKeyExtend | ai/privacy_aggregator.py:66 | a last field stays last when a field with another key follows |
| PyJson.StoreAllKeys | ai/privacy_aggregator.py:66 | storing the fields in turn lists the keys in order of their first field |
| PyJson.StoreAllLast | ai/privacy_aggregator.py:66 | storing the fields in turn leaves each key with the value of its last field |
| PyJson.ItemsByStoring | ai/privacy_aggregator.py:66 | the dict view equals the dict built by storing every field in turn, as the decoder does |
| PyJson.KeySetOfKeys | ai/privacy_aggregator.py:66 | a key is in the key set exactly when some field has it |
| PyJson.ItemsKeySet | ai/privacy_aggregator.py:66 | the dict has exactly the keys of the object's fields |
| PyJson.ItemsPyEq | ai/privacy_aggregator.py:66 | an object and its dict's items are the same dict under Python `==` |
| PyJson.LastOfKeyInit | stt/stt_settings_store.py:20-21 | a last field before the final one stays last without the final field, and has another key |
| Validators.UsernameRun | utils/validators.py:13 | the leading run of allowed username characters, stopping at the first other character |
| Validators.UsernameMatchIsShape | utils/validators.py:13-15 | `re.match(r'^[a-zA-Z0-9_.-]+$')` succeeds iff the name is one or more allowed characters, optionally followed by a single final newline |
| Validators.ValidateUsername | utils/validators.py:6-15 | success iff the message is empty; the empty name, too short and too long are rejected with their messages, in that order, before the character check |
| Validators.UsernameAccepted | utils/validators.py:6-15 | a username is accepted iff it has 3 to 50 characters and the allowed shape; an accepted name ending in a newline is otherwise all allowed characters |
| Validators.ValidatePassword | utils/validators.py:18-23 | accepted iff at least 8 characters, with an empty message exactly on success; the empty and the short password get their own messages |
| Validators.FirstIndex | utils/validators.py:29 | the first occurrence of a character, or the length |
| Validators.LastIndex | utils/validators.py:29 | the last occurrence of a character, or -1 |
| Validators.EmailScanOfShape | utils/validators.py:29-30 | every local@domain.letters string passes the scan |
| Validators.EmailScanIsShape | utils/validators.py:29-30 | the scan succeeds iff the string is local@domain.tld, where the tld has two or more letters after the last dot |
| Validators.ValidateEmail | utils/validators.py:26-32 | the empty address is accepted as optional; success iff the message is empty |
| Validators.EmailAccepted | utils/validators.py:26-32 | an address is accepted iff it is empty or has the email shape (allowing one final newline) |
| ChartUtils.SkipSpaces | ui/components/chart_utils.py:29 | `\s*`: the end of the run of white space |
| ChartUtils.DigitRun | ui/components/chart_utils.py:29 | `\d+`: the end of the run of digits |
| ChartUtils.Pow10 | ui/components/chart_utils.py:31 | powers of ten are positive |
| ChartUtils.Matches | ui/components/chart_utils.py:29 | the rating found at each start position of the notes |
| ChartUtils.FirstSomeIsLeftmost | ui/components/chart_utils.py:29-31 | the first match found is the leftmost one |
| ChartUtils.ParseEffectivenessRating | ui/components/chart_utils.py:25-32 | None for missing or empty notes; otherwise the number of the leftmost "[Ee]ffectiveness rated: N/5" match, or None when there is none |
| ChartUtils.RatingNoteRoundTrip | ui/screens/student/log_experience_page.py:138 | the note "Effectiveness rated: r/5" written by the log page parses back to r |
| ChartUtils.NoteMatchesAtStart | ui/screens/student/log_experience_page.py:138 | the written note matches at its first character |
| ChartUtils.NoteKeyword | ui/screens/student/log_experience_page.py:138 | the written note starts with the keyword, followed by the number and "/5" |
| ChartUtils.NumberOfNote | ui/components/chart_utils.py:29-31 | the number in the note is read as its decimal value |
| ChartUtils.CategoryLabels | ui/components/chart_utils.py:66-68 | each log's label is its support's title-cased category, or "General" |
| ChartUtils.InsertByCountPermutes | ui/components/chart_utils.py:70-75 | inserting keeps every entry and the total |
| ChartUtils.InsertByCountSorted | ui/components/chart_utils.py:70-75 | inserting keeps the descending count order |
| ChartUtils.InsertByCountStable | ui/components/chart_utils.py:70-75 | among equal counts, insertion keeps the original order (stable sort) |
| ChartUtils.WithCountBelow | ui/components/chart_utils.py:70-75 | in a descending list topped by smaller counts, no entry has the larger count |
| ChartUtils.WithCountSnoc | ui/components/chart_utils.py:70-75 | the entries with one count keep their order when one is appended |
| ChartUtils.SortByCountFacts | ui/components/chart_utils.py:70-75 | `sorted(..., key=value, reverse=True)`: descending by count, a permutation with the same total, and ties in their original order |
| ChartUtils.CategoryStep | ui/components/chart_utils.py:66-69 | each log bumps its category's count |
| ChartUtils.GroupByCategory | ui/components/chart_utils.py:58-75 | the method's loop and sort give the category grouping specified by its function |
| ChartUtils.CategoryCounts | ui/components/chart_utils.py:58-75 | no logs give []. The counts sum to the number of logs and are ordered descending, ties first-seen. Each count is its label's number of logs; the keys are exactly the labels seen, each once |
| ChartUtils.Weekday | ui/components/chart_utils.py:46 | a weekday is 0 to 6 |
| ChartUtils.Monday | ui/components/chart_utils.py:46 | the Monday of a day is a Monday at most six days before it |
| ChartUtils.InsertByWeekPermutes | ui/components/chart_utils.py:51-55 | inserting keeps every week and the total |
| ChartUtils.InsertByWeekSorted | ui/components/chart_utils.py:51-55 | inserting a new week keeps ascending week order |
| ChartUtils.SortByWeekFacts | ui/components/chart_utils.py:51-55 | sorting by week key gives ascending weeks, a permutation with the same total |
| ChartUtils.WeekKeysSnoc | ui/components/chart_utils.py:41-48 | an undated log adds no week key; a dated log adds its Monday |
| ChartUtils.WeekStep | ui/components/chart_utils.py:41-48 | each dated log bumps its week's count; an undated log changes nothing |
| ChartUtils.GroupByWeek | ui/components/chart_utils.py:35-55 | the method's loop and sort give the week grouping specified by its function |
| ChartUtils.WeekKeysFacts | ui/components/chart_utils.py:41-50 | one week key per dated log, and the keys are exactly the Mondays of the dated logs |
| ChartUtils.WeekCounts | ui/components/chart_utils.py:35-55 | the counts sum to the number of dated logs and come in ascending week order. Every key is a Monday, with its number of logs and a positive count, and the keys are exactly the Mondays of the dated logs |
| PyJson.PyEqReflexive | ui/accessibility.py:358 | every decoded value, list or dict included, is `==` to itself |
| PyJson.PyEqSymmetric | ui/accessibility.py:358 | `==` between decoded values is symmetric, through nested lists and dicts |
| PyJson.PyEqTruthy | ui/accessibility.py:358 | values that are `==` are equally truthy |
| PyJson.LastOfKeyUnique | ui/accessibility.py:358 | a decoded dict keeps one entry per key: the last one written |
| Accessibility.FloorZero | ui/accessibility.py:369 | `max(0, val)` |
| Accessibility.Clamp | ui/accessibility.py:225 | `max(lo, min(hi, px))` is within the bounds, is px when px already is, else the nearer bound |
| Accessibility.OverrideKeys | ui/accessibility.py:23-89 | the override tables only name existing colour keys |
| Accessibility.EffectiveColorsOverlay | ui/accessibility.py:250-257 | the effective colours have exactly the base keys. Each key takes the high-contrast override when high contrast is on and the key is overridden. Otherwise it takes the colour-blind entry when there is one, else the base colour |
| Accessibility.ProtanopiaPrimary | ui/accessibility.py:30-40 | protanopia makes the primary colour #0072B2 |
| Accessibility.TextNotOverridden | ui/accessibility.py:23-89 | neither table overrides the text colour |
| Accessibility.TextUntouched | ui/accessibility.py:250-257 | the text colour stays #ffffff in every mode |
| Accessibility.FontSizesOf | ui/accessibility.py:259-260 | the current scale's sizes, or "medium" (16/24/18) for an unknown scale; body text is smaller than subheadings, which are smaller than headings |
| Accessibility.LoadChoice | ui/accessibility.py:345-348 | a choice key is taken only when its value is truthy, in the table and different; an unhashable list or dict value raises TypeError |
| Accessibility.LoadFlag | ui/accessibility.py:357-360 | a flag ends `==` to the loaded value (False when missing) and exactly as truthy; it is either that value or the flag as it was |
| Accessibility.LoadSpacing | ui/accessibility.py:367-370 | an integer value that differs is stored floored at 0 with no upper clamp; anything else leaves the spacing |
| Accessibility.LoadChoices | ui/accessibility.py:340-348 | the change flag is set iff some choice changed |
| Accessibility.LoadKeepsValid | ui/accessibility.py:337-373 | loading from any dict keeps the choices in their tables and the spacings non-negative |
| Accessibility.LoadRaises | ui/accessibility.py:340-348 | loading raises exactly when a choice key holds a non-empty list or dict; then only the earlier choices have changed |
| Accessibility.LoadRoundTrip | ui/accessibility.py:322-370 | loading what `to_dict` saved restores all eleven fields |
| Accessibility.LoadEmpty | ui/accessibility.py:340-370 | an empty dict keeps the choices, resets every flag to False and every spacing to 0 |
| Accessibility.LoadSpacingUnclamped | ui/accessibility.py:367-369 | a loaded letter spacing n becomes max(0, n), with no upper clamp |
| Accessibility.NegativeSpacingEmits | ui/accessibility.py:367-373 | a negative spacing over a stored 0 leaves every setting unchanged yet reports a change and emits |
| Accessibility.AccessibilityManager.constructor | ui/accessibility.py:117-134 | a new manager holds the defaults, no role accent, and has emitted nothing |
| Accessibility.AccessibilityManager.SetFontScale | ui/accessibility.py:184-187 | a known, different scale is stored and emits once; anything else changes and emits nothing |
| Accessibility.AccessibilityManager.SetColorBlindMode | ui/accessibility.py:204-207 | a known, different mode is stored and emits once; anything else changes and emits nothing |
| Accessibility.AccessibilityManager.SetCustomCursor | ui/accessibility.py:214-217 | a known, different cursor is stored and emits once; anything else changes and emits nothing |
| Accessibility.AccessibilityManager.SetHighContrast | ui/accessibility.py:189-192 | a different value is stored and emits once; the same value changes and emits nothing |
| Accessibility.AccessibilityManager.SetReducedMotion | ui/accessibility.py:194-197 | a different value is stored and emits once; the same value changes and emits nothing |
| Accessibility.AccessibilityManager.SetEnhancedFocus | ui/accessibility.py:199-202 | a different value is stored and emits once; the same value changes and emits nothing |
| Accessibility.AccessibilityManager.SetDyslexiaFont | ui/accessibility.py:209-212 | a different value is stored and emits once; the same value changes and emits nothing |
| Accessibility.AccessibilityManager.SetReadingRuler | ui/accessibility.py:219-222 | a different value is stored and emits once; the same value changes and emits nothing |
| Accessibility.AccessibilityManager.SetLetterSpacing | ui/accessibility.py:224-228 | the spacing becomes px clamped to 0..8; it emits once iff that differs |
| Accessibility.AccessibilityManager.SetWordSpacing | ui/accessibility.py:230-234 | the spacing becomes px clamped to 0..12; it emits once iff that differs |
| Accessibility.AccessibilityManager.SetLineHeight | ui/accessibility.py:236-240 | the line height becomes px clamped to 0..12; it emits once iff that differs |
| Accessibility.AccessibilityManager.SetRoleAccent | ui/accessibility.py:242-246 | a known role is stored and always emits, even when unchanged; an unknown role or None changes and emits nothing |
| Accessibility.AccessibilityManager.SetLetterSpacingTwice | ui/accessibility.py:224-228 | setting the same spacing twice emits at most once |
| Accessibility.AccessibilityManager.GetEffectiveColors | ui/accessibility.py:250-257 | the overlay for the current mode and contrast, over exactly the base keys |
| Accessibility.AccessibilityManager.GetFontSizes | ui/accessibility.py:259-260 | the current scale's sizes, which come from the table while the manager is valid |
| Accessibility.AccessibilityManager.ToDict | ui/accessibility.py:322-335 | the eleven fields under their saved keys |
| Accessibility.AccessibilityManager.LoadChoicesInto | ui/accessibility.py:340-348 | the choice loop, including the TypeError it can raise |
| Accessibility.AccessibilityManager.LoadFlagsInto | ui/accessibility.py:350-360 | the flag loop, reporting whether any flag changed |
| Accessibility.AccessibilityManager.LoadSpacingsInto | ui/accessibility.py:362-370 | the spacing loop, reporting whether any spacing was written |
| Accessibility.AccessibilityManager.LoadFromDict | ui/accessibility.py:337-373 | the new settings are those loaded from the dict; a TypeError is raised exactly as loading predicts; the signal is emitted once iff loading finished and changed something |
| Auth.HashPassword | models/auth.py:19-24 | a stored hash verifies the password it was made from |
| Auth.HashFacts | models/auth.py:19-24 | a hash verifies exactly its own password, and different salts give different hashes |
| Auth.NormaliseIdempotent | models/auth.py:154-157 | lower-casing and stripping an already normalised answer changes nothing |
| Auth.RegistrationError | models/auth.py:33-45 | registration is refused iff the username is invalid, the password invalid, question 1 or answer 1 missing, or the role not student/teacher, checked in that order; every refusal has a message |
| Auth.NewUser | models/auth.py:53-75 | the new record carries the id, username and role, and its hash verifies the password |
| Auth.LoginAccepted | models/auth.py:85-109 | a login succeeds iff both fields are given, the user exists, the expected role (when given) matches, and the password verifies |
| Auth.RoleCheckedFirst | models/auth.py:92-98 | an expected-role mismatch is refused before the password is looked at |
| Auth.RoleTabNames | models/auth.py:97 | the refusal names the "Student" or "Teacher" login tab |
| Auth.SecurityQuestions | models/auth.py:134-145 | questions are given iff the user exists and has question 1, and then they are that user's questions |
| Auth.SecurityAnswers | models/auth.py:146-161 | success iff the reply is "Answers verified" |
| Auth.SecurityAnswersAccepted | models/auth.py:146-161 | answers verify iff the user exists with answer 1, answer 1 matches after normalising, and answer 2 matches whenever the account has both question 2 and answer 2 |
| Auth.SecurityAnswersNormalised | models/auth.py:154 | answers equal after lower-casing and stripping get the same reply |
| Auth.TypedMatchesStored | models/auth.py:154 | an answer typed like the registered one matches that answer as stored |
| Auth.StoredAnswersVerify | models/auth.py:154-159 | answers stored normalised pass against any answers typed like them, unless the first is stored empty |
| Auth.AuthManager.constructor | models/auth.py:15-17 | a new manager has an empty store, an empty audit log and nobody logged in |
| Auth.AuthManager.Register | models/auth.py:26-82 | a refused or duplicate registration changes nothing. A successful one stores the new user (answers normalised, display name defaulting to the username), logs them in and appends one audit entry |
| Auth.AuthManager.Login | models/auth.py:83-111 | refusals change nothing. A wrong password appends one "login_failed" entry. Success sets the current user and appends one "login_success" entry; the store never changes |
| Auth.AuthManager.Logout | models/auth.py:113-124 | nobody is logged in afterwards; an audit entry is written only if someone was |
| Auth.AuthManager.IsAuthenticated | models/auth.py:126-127 | true iff someone is logged in |
| Auth.AuthManager.GetSecurityQuestions | models/auth.py:134-145 | the questions of the stored user |
| Auth.AuthManager.VerifySecurityAnswers | models/auth.py:146-161 | the reply for the stored user's answers |
| Auth.AuthManager.ResetPassword | models/auth.py:163-177 | an invalid password or unknown user changes nothing; otherwise only that user's hash is replaced |
| Auth.RegisterKeepsValid | models/auth.py:49-75 | registering keeps usernames unique and ids below the next id |
| Auth.ResetKeepsValid | models/auth.py:163-177 | a reset keeps the store valid |
| Auth.RegisteredCanLogIn | models/auth.py:53-109 | a freshly registered user can log in with the password and role given |
| Auth.RegisteredAnswersVerify | models/auth.py:58-63 | a freshly registered user's answers verify when typed in any ASCII case with any surrounding blanks; a first answer of blanks only is stored empty and then always refused with "No security answers set" |
| Auth.ResetThenLogIn | models/auth.py:163-177 | after a reset the new password logs in on the account's own tab, any other password is refused, and every other account's login outcome is unchanged for every password and tab |
| Backend.MakeClient | ai/backend_manager.py:32-46 | local ollama/lmstudio/gpt4all give their client with the model; any other local provider gives none; any non-local type gives a cloud client |
| Backend.BackendManager.constructor | ai/backend_manager.py:10-18 | local, ollama, gemma3:4b at localhost:11434, no key, both consents false so cloud consent is not granted, no client |
| Backend.BackendManager.Configure | ai/backend_manager.py:20-30 | type and provider always change; model, key and URL change only when the argument is truthy; the client is rebuilt; neither consent nor whether cloud consent is granted changes |
| Backend.BackendManager.CloudConsentGranted | ai/backend_manager.py:49-50 | granted exactly when both the institutional and the data consent are given: the definition is just this conjunction; what it adds is that a new manager has not granted it and configuring never changes it |
| Backend.BackendManager.TestConnection | ai/backend_manager.py:52-56 | with no buildable client, the reply is (False, "No client configured") |
| Backend.BackendManager.GenerateResponse | ai/backend_manager.py:59-63 | with no client, exactly one chunk, "No AI backend configured." |
| Backend.NoClientOnlyForUnknownLocal | ai/backend_manager.py:32-46 | only an unknown local provider yields no client |
| SttSettings.ObjectToMap | stt/stt_settings_store.py:20-21 | the parsed object's keys are the dict's keys |
| SttSettings.ObjectToMapLast | stt/stt_settings_store.py:20-21 | each key of the dict holds the value of its last field |
| SttSettings.FallsBackToDefaults | stt/stt_settings_store.py:26-28 | no file, a parse failure or a non-object gives the defaults |
| SttSettings.MergesOverDefaults | stt/stt_settings_store.py:19-24 | every default key is present; stored values override defaults and extra keys are kept; a stored "base" model becomes "small"; every key but the model size holds the value of its last field in the file |
| SttSettings.LoadSttSettings | stt/stt_settings_store.py:17-28 | every default key is present in the loaded settings, and the model size is never "base" |
| Focus.TrapList | ui/focus_manager.py:36 | the list drops the None entries and keeps every other widget |
| Focus.TrapListSnoc | ui/focus_manager.py:36 | one more widget is kept at the end, a None is dropped |
| Focus.IndexOf | ui/focus_manager.py:57 | `list.index`: the first position holding the widget |
| Focus.NextIndex | ui/focus_manager.py:58-61 | forwards wraps from the last position to 0; backwards wraps from 0 to the last |
| Focus.TabTrapFilter.constructor | ui/focus_manager.py:33-38 | the filter holds the given widgets without the Nones |
| Focus.TabTrapFilter.EventFilter | ui/focus_manager.py:52-64 | consumed iff it is a Tab key press while a listed widget has focus; then focus moves to the next (or previous) listed widget |
| Focus.TabTrapFilter.EventFilterCorrected | ui/focus_manager.py:52-64 | the filter with Backtab handled too: both keys are trapped and focus stays in the list |
| Focus.TabCycles | ui/focus_manager.py:56-63 | Tab from a listed widget moves focus to the next, wrapping at the end |
| Focus.ShiftTabEscapes | ui/focus_manager.py:54 | Shift+Tab, which arrives as Backtab, is not consumed, so focus leaves the list |
| Focus.CorrectedTrapsBoth | ui/focus_manager.py:52-64 | with Backtab handled, focus never leaves the list, and Shift+Tab from the first widget goes to the last |
| CursorTrail.DistanceSq | ui/cursor_trail.py:41-43 | squared distance is non-negative and zero only for the same point |
| CursorTrail.Recent | ui/cursor_trail.py:46-48 | the last n recorded points, in recording order |
| CursorTrail.RecentSnoc | ui/cursor_trail.py:46-48 | append-then-drop-the-oldest keeps the buffer the last n points (FIFO) |
| CursorTrail.Frac | ui/cursor_trail.py:58 | each sprite's fraction is strictly between 0 and 1 |
| CursorTrail.FracIncreasing | ui/cursor_trail.py:58 | later sprites have larger fractions |
| CursorTrail.CursorTrailOverlay.constructor | ui/cursor_trail.py:22-23 | a new overlay has no points and no last position |
| CursorTrail.CursorTrailOverlay.Start | ui/cursor_trail.py:27-31 | starting the timer leaves the points alone |
| CursorTrail.CursorTrailOverlay.Stop | ui/cursor_trail.py:33-36 | the buffer is emptied; the last position is kept |
| CursorTrail.CursorTrailOverlay.Tick | ui/cursor_trail.py:38-49 | a move shorter than 6 pixels from the last position changes nothing. Otherwise the position is recorded, the buffer holds the last at most 8 positions ending with the new one, and a repaint is requested |
| CursorTrail.CursorTrailOverlay.Paint | ui/cursor_trail.py:51-66 | nothing with fewer than 2 points; otherwise one sprite per point but the newest, at that point, with opacity below 0.35 and scale between 0.4 and 1 |
| CursorTrail.NewerIsStronger | ui/cursor_trail.py:57-60 | newer sprites are more opaque and larger |
| Rating.Highlights | ui/components/rating_widget.py:50-54 | one highlight per button, 5 in all |
| Rating.CountTrue | ui/components/rating_widget.py:50-54 | the number of highlighted buttons is at most the number of buttons |
| Rating.HighlightCount | ui/components/rating_widget.py:50-54 | exactly `rating` buttons are highlighted (clamped to 0..5) |
| Rating.PrefixCount | ui/components/rating_widget.py:52-54 | among the first k buttons, min(rating, k) are highlighted |
| Rating.RatingWidget.constructor | ui/components/rating_widget.py:14-18 | a new widget has rating 0, nothing emitted, and the name "caption 0 out of 5" |
| Rating.RatingWidget.UpdateStyles | ui/components/rating_widget.py:50-54 | button i is highlighted iff i <= rating; nothing else changes |
| Rating.RatingWidget.Click | ui/components/rating_widget.py:44-48 | the rating becomes v, the name reports v, and v is emitted once |
| Rating.RatingWidget.GetRating | ui/components/rating_widget.py:72-73 | the rating is within 0..5 and equals the number of highlighted buttons |
| Rating.RatingWidget.Reset | ui/components/rating_widget.py:75-77 | rating 0, no button highlighted, nothing emitted, and the accessible name left as it was |
| Rating.RatingWidget.ResetCorrected | ui/components/rating_widget.py:75-77 | reset with the name restored to "caption 0 out of 5", so the name reports the rating again |
| Rating.ResetLeavesStaleName | ui/components/rating_widget.py:75-77 | after clicking 4 and resetting, the rating is 0 but the name still reads "Rating: 4 out of 5" |
| Sidebar.DictKeys | ui/components/sidebar.py:87-96 | the button dict's keys: exactly the item keys, each once, a key listed before another occurring in the items before every occurrence of the other, and the first item's key first |
| Sidebar.OnlyActiveHighlighted | ui/components/sidebar.py:156-179 | exactly the active key's button is highlighted, and none when no button has that key |
| Sidebar.SidebarNav.constructor | ui/components/sidebar.py:31-41 | the first item's key is active, or "" with no items, and the buttons are styled for it |
| Sidebar.SidebarNav.UpdateButtonStyles | ui/components/sidebar.py:156-179 | each button is highlighted iff its key is the active one |
| Sidebar.SidebarNav.OnNav | ui/components/sidebar.py:145-150 | the current key changes and emits nothing; another key becomes active and is emitted once |
| Sidebar.SidebarNav.SetActive | ui/components/sidebar.py:152-154 | the key becomes active, the buttons are restyled, nothing is emitted |
| Sidebar.FirstItemHighlighted | ui/components/sidebar.py:41 | a new sidebar with items highlights exactly the first item |
| Breadcrumb.Built | ui/components/breadcrumb.py:33-59 | after i crumbs the row holds 2i-1 items |
| Breadcrumb.BuiltShape | ui/components/breadcrumb.py:33-59 | after i crumbs, crumb k/2 sits at every even position k and a separator at every odd one |
| Breadcrumb.Texts | ui/components/breadcrumb.py:33-59 | the texts shown in a row |
| Breadcrumb.TextsAppend | ui/components/breadcrumb.py:33-59 | the texts of two rows joined are their texts joined |
| Breadcrumb.TextsSingle | ui/components/breadcrumb.py:33-59 | a crumb shows its text; a separator shows none |
| Breadcrumb.TextsOfBuilt | ui/components/breadcrumb.py:33-59 | after i crumbs the row shows the first i crumbs in order |
| Breadcrumb.TrailShowsCrumbs | ui/components/breadcrumb.py:33-59 | the rebuilt row shows exactly the crumbs, in order |
| Breadcrumb.TrailShape | ui/components/breadcrumb.py:33-59 | 2n-1 items for n crumbs with separators exactly at odd positions; crumbs 0..n-2 are buttons carrying their own index, and only the last crumb is a label |
| Breadcrumb.BreadcrumbBar.constructor | ui/components/breadcrumb.py:14-21 | a new bar holds only its stretch |
| Breadcrumb.BreadcrumbBar.SetCrumbs | ui/components/breadcrumb.py:23-59 | everything but the stretch is removed, then the trail for the new crumbs is placed before the stretch; nothing is emitted |
| Breadcrumb.BreadcrumbBar.Click | ui/components/breadcrumb.py:49-54 | clicking a crumb button emits that button's index |
| Breadcrumb.ButtonAnnouncesItsCrumb | ui/components/breadcrumb.py:39-54 | in a rebuilt bar, crumb i's button shows crumb i and announces i |
| Tutorial.StepsFor | ui/components/tutorial_dialog.py:383-388 | a role always gets a non-empty list of steps |
| Tutorial.StepsByRole | ui/components/tutorial_dialog.py:383-388 | the student steps iff the role is "student"; every other role gets the teacher steps |
| Tutorial.Dots | ui/components/tutorial_dialog.py:529-535 | one dot per step |
| Tutorial.CountDots | ui/components/tutorial_dialog.py:529-535 | a count of dots of one kind is at most the number of dots |
| Tutorial.DotsPrefix | ui/components/tutorial_dialog.py:529-535 | among the first k dots, min(k, index) are done and one is current once k passes the index |
| Tutorial.DotsShowProgress | ui/components/tutorial_dialog.py:529-535 | exactly one dot is current and exactly `index` are done |
| Tutorial.TutorialDialog.constructor | ui/components/tutorial_dialog.py:380-390 | the dialog opens at step 0 of the role's steps, not accepted |
| Tutorial.TutorialDialog.ShowStep | ui/components/tutorial_dialog.py:513-541 | the step becomes current, with its title, "Step i of n", the dots, Previous enabled iff i > 0, and "Finish" on the last step |
| Tutorial.TutorialDialog.GoPrev | ui/components/tutorial_dialog.py:543-545 | back one step, except at step 0 |
| Tutorial.TutorialDialog.GoNext | ui/components/tutorial_dialog.py:547-551 | on one step, except at the last, where the dialog is accepted and the step stays |
| Dictation.Separator | ui/components/mic_button.py:270-272 | a space is inserted iff the text before the cursor is non-empty and does not end in a space |
| Dictation.InsertKeepsText | ui/components/mic_button.py:261-281 | the new text is the old text with the separator and the dictation at the cursor. Cutting them out restores the old text. The cursor ends just after the dictation, which a preceding word is separated from by a space |
| Dictation.TextTarget.constructor | ui/components/mic_button.py:261-281 | a target field with its text and cursor |
| Dictation.MicButton.constructor | ui/components/mic_button.py:20-33 | a new button is idle, enabled, not pulsing, with no recorder |
| Dictation.MicButton.StartRecording | ui/components/mic_button.py:175-212 | recording starts iff the engine is available and the model is cached and loads, or is downloaded; otherwise nothing changes |
| Dictation.MicButton.StopRecording | ui/components/mic_button.py:214-217 | the pulse stops and a running recorder is asked once to stop |
| Dictation.MicButton.OnClick | ui/components/mic_button.py:169-173 | idle tries to start (a start pulses with a recorder, a refusal changes nothing), and sends no stop request; recording stops the pulse and sends its recorder exactly one stop request; transcribing ignores the click |
| Dictation.MicButton.OnAudioReady | ui/components/mic_button.py:221-225 | transcribing, with the button disabled; the recorder and the stop requests are untouched |
| Dictation.MicButton.OnTranscribeDone | ui/components/mic_button.py:243-247 | idle and enabled again; the recorder and the stop requests are untouched |
| Dictation.MicButton.OnRecordError | ui/components/mic_button.py:249-254 | idle with the pulse stopped; the enabled flag, the recorder and the stop requests are left as they were |
| Dictation.MicButton.AppendText | ui/components/mic_button.py:261-281 | a line edit or text edit gets the insertion at its cursor; any other widget is untouched |
| Dictation.MicButton.OnTextReady | ui/components/mic_button.py:234-241 | a whitespace-only transcription never modifies the target; any other is inserted into a line edit or text edit and leaves any other widget untouched |
| Markdown.InnerOfBold | ui/screens/teacher/export_page.py:667 | `s[2:-2]`: the inside of a bold line, empty for fewer than four characters |
| Markdown.Runs | ui/screens/teacher/export_page.py:669-676 | no more runs than parts, and every run non-empty |
| Markdown.InlineRuns | ui/screens/teacher/export_page.py:669-676 | the runs of the parts of the line split at "**", odd-numbered parts bold |
| Markdown.LineToBlock | ui/screens/teacher/export_page.py:653-676 | the element one line becomes: an empty paragraph, a heading ("### ", "## ", "# " in that order), a bullet, a single bold run, or inline runs |
| Markdown.MarkdownToDocx | ui/screens/teacher/export_page.py:650-676 | the document is each line's element, in order |
| Markdown.OneBlockPerLine | ui/screens/teacher/export_page.py:652 | exactly one element per line, the j-th line's at position j |
| Markdown.LinesCoverText | ui/screens/teacher/export_page.py:652 | the lines joined with newlines are the text: no text is lost between lines |
| Markdown.RemoveBold | ui/screens/teacher/export_page.py:669 | the line with every "**" taken out is no longer than the line |
| Markdown.ConcatSplitOn | ui/screens/teacher/export_page.py:669 | the parts of a split at "**", put together, are the line without its "**" |
| Markdown.RunTexts | ui/screens/teacher/export_page.py:669-676 | one text per run |
| Markdown.ConcatSnoc | ui/screens/teacher/export_page.py:669-676 | appending a part appends its text |
| Markdown.ConcatRuns | ui/screens/teacher/export_page.py:669-676 | dropping empty parts loses no text |
| Markdown.InlineRunsKeepText | ui/screens/teacher/export_page.py:669-676 | an inline paragraph's runs concatenate to the stripped line with every "**" removed |
| Markdown.StripTrimmed | ui/screens/teacher/export_page.py:653 | a line with no blanks at its ends is its own strip |
| Markdown.HeadingRoundTrip | ui/screens/teacher/export_page.py:657-662 | a heading of level 1-3 written as "#"s, a space and its text is read back as that heading |
| Markdown.BulletRoundTrip | ui/screens/teacher/export_page.py:663-664 | a bullet written as "- " and its text is read back as that bullet |

## Left out

- Qt rendering: layouts, stylesheets, icons, pixmaps, timers, painting geometry, and the cursor-image painting of the accessibility manager. This is presentation with no logic beyond what is modelled.
- Networking, async streaming and threads: the language-model clients, the recording and transcription workers, and the model download. Their answers are parameters (`clientAnswer`, `clientChunks`, `available`, `modelCached`, `downloadAccepted`, `loadsModel`).
- The database and sessions: the auth store is an in-memory map of usernames to records. Commit failures and rollback paths are not modelled.
- File reading: the STT settings file and its text are a parameter; `json.loads` is a parameter (`loads`) everywhere.
- Auth.HashPassword: bcrypt is modelled as an injective hash with an explicit salt parameter; its cost and format are not modelled. bcrypt reads at most the first 72 bytes of a password (recent releases of the library refuse longer ones instead), so two passwords that agree on their first 72 bytes verify against each other's hash; Auth.HashFacts and the clause of Auth.ResetThenLogIn saying that another password is refused hold only for passwords of at most 72 bytes.
- AggregatorFacts.EffectivenessMeans: means are exact reals; Python floating point and `round(..., 1)` are not modelled.
- Aggregator.ParseJsonField: JSON numbers are integers only; floats are not modelled.
- Aggregator.SortLabels: float labels are not modelled; Python would sort them by value among the `int` and `bool` labels. The TypeError is modelled as raised whenever two labels cannot be compared, since any complete comparison sort must compare each pair that ends up adjacent.
- PyJson.PyEq: Python equality between decoded values equates `True` with 1 and `False` with 0, also inside lists and dict values, and compares dicts by their keys and the last value written under each; floats such as `1.0` are not modelled.
- ChartUtils.GroupByWeek: dates are day numbers whose weekday is `(d + 6) % 7`. Calendar conversion and the "%b %d" label text are left out. Week keys are ordered as numbers, which is how their "%Y-%m-%d" strings order for four-digit years; glibc does not zero-pad `%Y` below year 1000, so earlier years would order differently.
- ChartUtils.ParseEffectivenessRating: a decimal rating "N.M" is read as an exact real, not a float.
- Text.Lower: case folding is ASCII only; Unicode case mapping is not modelled.
- Themes.LitMatchesAt: `re.IGNORECASE` on `str` patterns also folds non-ASCII letters (for instance `ſ` matches `s` and the Kelvin sign matches `k`); the model compares up to ASCII case only, so such texts are not matched.
- Text.Title: `str.title` treats every Unicode letter as cased or uncased (`"ÉCOLE"` becomes `"École"`); the model knows only the ASCII letters, so a non-ASCII letter counts as a word boundary and is left unchanged (`"ÉCOLE"` becomes `"ÉCole"` here).
- ChartUtils.DigitRun: `\d` on `str` patterns matches every Unicode decimal digit (Arabic-Indic, full-width and so on); the model accepts the ASCII digits `0`-`9` only.
- SttSettings.ObjectToMap: dict key order is not modelled; only membership and values are.
- The `instance`/`create` singleton of the accessibility manager and `get_cursor` are left out.
- `_on_transcribe_error` and the message boxes are left out: they only show a warning.
- Dictation.MicButton.AppendText: a text edit's selection and rich text are not modelled; both target kinds are treated as plain text with a cursor.
- Dictation.MicButton.AppendText: the cursor is a character index, as the Python slicing uses it; Qt reports `cursorPosition()` in UTF-16 code units, so with a character outside the Basic Multilingual Plane (an emoji, say) before the cursor the source cuts the text at a later character than the cursor shows. The model does not capture that offset.
- The dictation button's pulse toggle (`_pulse_tick`) and its styles are left out; only the `pulsing` flag is kept.
- Dictation.MicButton.OnRecordError: when a record error arrives while transcribing, the button stays disabled. This is modelled as written.
- CursorTrail.CursorTrailOverlay.Paint: `int()` truncation of sprite sizes and hotspot offsets is left out; the sprites carry exact opacity and scale.
- Sidebar.SidebarNav.constructor: the logo, settings and logout buttons and the role accent colours are left out.
- Tutorial.TutorialDialog.constructor: step icons and bodies are left out; the steps are their titles.
- Breadcrumb.BreadcrumbBar.SetCrumbs: the accessible names "Navigate to …" and aliasing of the stored crumb list are left out.
- Markdown.MarkdownToDocx: python-docx styles and fonts are left out; the document is a sequence of abstract elements.
- Focus.TabTrapFilter.EventFilter: the `setFocus` side effect is returned as the widget to focus.

## Findings

| source | as written | input that shows it | evidently intended | confidence | as-written member | corrected member |
|---|---|---|---|---|---|---|
| ui/focus_manager.py:54-59 | only `Key_Tab` is trapped; Qt delivers Shift+Tab as `Key_Backtab`, so the backwards branch never runs | Shift+Tab while a listed widget has focus | Backtab trapped too, moving focus to the previous listed widget | medium, not executed | Focus.ShiftTabEscapes | Focus.CorrectedTrapsBoth |
| ui/components/rating_widget.py:75-77 | `reset` sets the rating to 0 but leaves the accessible name reporting the old rating | click 4, then reset | the name reset to "… 0 out of 5" | medium, not executed | Rating.ResetLeavesStaleName | Rating.RatingWidget.ResetCorrected |

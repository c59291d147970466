/** The accessibility settings manager: the user's display preferences, the
    setters that change them one at a time, the colour and font tables they
    select from, and the dictionary form in which the preferences are saved
    and restored. The `settings_changed` signal is modelled as a counter of
    emissions.

    The flags and spacings hold whatever Python value was last stored in
    them, because restoring from a saved dictionary stores the saved value
    as it is; they are therefore modelled as decoded JSON values, and read
    through Python truthiness and Python equality. */
module Accessibility {
  import opened Py
  import opened PyJson

  // ---------------------------------------------------------------- Python values

  /** `max(0, val)` on an `int`: Python keeps the first of equal maxima, so
      `True` stays `True` and anything not positive becomes `0`. */
  function FloorZero(j: Json): (r: Json)
    requires IsInt(j)
    ensures IsInt(r) && NumberOf(r) == (if NumberOf(j) < 0 then 0 else NumberOf(j))
    ensures NumberOf(j) > 0 ==> r == j
  {
    if NumberOf(j) > 0 then j else JInt(0)
  }

  /** `max(lo, min(hi, x))`. */
  function Clamp(lo: int, hi: int, x: int): (r: int)
    requires lo <= hi
    ensures lo <= r <= hi
    ensures lo <= x <= hi ==> r == x
    ensures x < lo ==> r == lo
    ensures x > hi ==> r == hi
  {
    if x < lo then lo else if x > hi then hi else x
  }

  // ---------------------------------------------------------------- tables

  datatype FontSizes = FontSizes(base: int, heading: int, subheading: int)

  const FontScales: map<string, FontSizes> := map[
    "small" := FontSizes(14, 20, 16),
    "medium" := FontSizes(16, 24, 18),
    "large" := FontSizes(20, 30, 22),
    "extra_large" := FontSizes(24, 36, 28)]

  /** The application's colour scheme. */
  const Colors: map<string, string> := map[
    "primary" := "#6f2fa6",
    "primary_text" := "#b065d6",
    "secondary" := "#3a2b95",
    "tertiary" := "#a23b84",
    "dark_bg" := "#1a1a2e",
    "dark_card" := "#16213e",
    "dark_border" := "#1c2a4a",
    "dark_hover" := "#1a2d50",
    "dark_input" := "#0f3460",
    "text" := "#ffffff",
    "text_muted" := "#b8b8b8",
    "success" := "#28a745",
    "warning" := "#ffc107",
    "error" := "#ff4d5e"]

  const HighContrastOverrides: map<string, string> := map[
    "primary_text" := "#f0a0d8",
    "error" := "#ff9da7",
    "success" := "#6fe882",
    "text_muted" := "#d4d4d4"]

  const Protanopia: map<string, string> := map[
    "primary" := "#0072B2",
    "primary_text" := "#56B4E9",
    "secondary" := "#2b4095",
    "tertiary" := "#3870b2",
    "success" := "#009E73",
    "warning" := "#E69F00",
    "error" := "#D55E00",
    "dark_bg" := "#0d1b2a",
    "dark_card" := "#1b2838",
    "dark_border" := "#1e3448",
    "dark_hover" := "#1a3050",
    "dark_input" := "#0e2d4a"]

  const Deuteranopia: map<string, string> := Protanopia["success" := "#56B4E9"]

  const Tritanopia: map<string, string> := map[
    "primary" := "#CC79A7",
    "primary_text" := "#d4a0c0",
    "secondary" := "#8b3a50",
    "tertiary" := "#a04068",
    "success" := "#009E73",
    "warning" := "#D55E00",
    "error" := "#cc3333",
    "dark_bg" := "#1a1520",
    "dark_card" := "#261e2e",
    "dark_border" := "#3a2840",
    "dark_hover" := "#2e2238",
    "dark_input" := "#321a3a"]

  const Monochrome: map<string, string> := map[
    "primary" := "#858585",
    "primary_text" := "#b0b0b0",
    "secondary" := "#5a5a5a",
    "tertiary" := "#707070",
    "success" := "#a0a0a0",
    "warning" := "#d0d0d0",
    "error" := "#c0c0c0",
    "dark_bg" := "#1a1a1a",
    "dark_card" := "#252525",
    "dark_border" := "#333333",
    "dark_hover" := "#2e2e2e",
    "dark_input" := "#303030"]

  /** The keys of the colour-blind table. */
  const ColorBlindModes: set<string> := {"none", "protanopia", "deuteranopia", "tritanopia", "monochrome"}

  /** `COLOR_BLIND_MODES.get(mode, {})`. */
  function ColorBlindTable(mode: string): map<string, string>
  {
    if mode == "protanopia" then Protanopia
    else if mode == "deuteranopia" then Deuteranopia
    else if mode == "tritanopia" then Tritanopia
    else if mode == "monochrome" then Monochrome
    else map[]
  }

  /** The keys of the cursor table (its values are display labels). */
  const CustomCursors: set<string> :=
    {"default", "large_black", "large_white", "large_crosshair", "high_visibility", "pointer_trail"}

  /** The keys of the brand's role accent table. */
  const RoleAccents: set<string> := {"student", "teacher"}

  // ---------------------------------------------------------------- derived values

  /** `get_effective_colors`: the colour scheme, overlaid by the table of
      the colour-blind mode when that table is non-empty, then by the
      high-contrast overrides when high contrast is on. */
  function EffectiveColors(mode: string, highContrast: bool): map<string, string>
  {
    var overrides := ColorBlindTable(mode);
    var colors := if |overrides| > 0 then Colors + overrides else Colors;
    if highContrast then colors + HighContrastOverrides else colors
  }

  lemma HighContrastKeys()
    ensures HighContrastOverrides.Keys <= Colors.Keys
  {
  }

  lemma ProtanopiaKeys()
    ensures Protanopia.Keys <= Colors.Keys
  {
  }

  lemma TritanopiaKeys()
    ensures Tritanopia.Keys <= Colors.Keys
  {
  }

  lemma MonochromeKeys()
    ensures Monochrome.Keys <= Colors.Keys
  {
  }

  /** Every override table only names colours of the scheme. */
  lemma OverrideKeys()
    ensures HighContrastOverrides.Keys <= Colors.Keys
    ensures forall m :: ColorBlindTable(m).Keys <= Colors.Keys
  {
    HighContrastKeys();
    ProtanopiaKeys();
    TritanopiaKeys();
    MonochromeKeys();
  }

  /** The overlay never adds a colour, and each colour comes from the
      highest-priority table that has it: high contrast, then the
      colour-blind mode, then the scheme. */
  lemma EffectiveColorsOverlay(mode: string, highContrast: bool)
    ensures EffectiveColors(mode, highContrast).Keys == Colors.Keys
    ensures forall k :: k in Colors ==>
      EffectiveColors(mode, highContrast)[k] ==
        if highContrast && k in HighContrastOverrides then HighContrastOverrides[k]
        else if k in ColorBlindTable(mode) then ColorBlindTable(mode)[k]
        else Colors[k]
  {
    OverrideKeys();
    Overlay(Colors, ColorBlindTable(mode), HighContrastOverrides, highContrast);
  }

  /** Laying `over` and then, when `useTop` holds, `top` over `base`. */
  lemma Overlay(base: map<string, string>, over: map<string, string>, top: map<string, string>, useTop: bool)
    requires over.Keys <= base.Keys && top.Keys <= base.Keys
    ensures var m := if |over| > 0 then base + over else base;
      var c := if useTop then m + top else m;
      && c.Keys == base.Keys
      && forall k :: k in base ==> c[k] == if useTop && k in top then top[k] else if k in over then over[k] else base[k]
  {
  }

  /** The colour-blind override from the manager's tests. */
  lemma ProtanopiaPrimary(highContrast: bool)
    ensures EffectiveColors("protanopia", highContrast)["primary"] == "#0072B2"
  {
    assert Protanopia["primary"] == "#0072B2";
    assert "primary" in Colors;
    assert "primary" !in HighContrastOverrides;
    EffectiveColorsOverlay("protanopia", highContrast);
  }

  lemma TextNotOverridden(mode: string)
    ensures "text" !in HighContrastOverrides && "text" !in ColorBlindTable(mode)
  {
  }

  /** A colour that no table overrides. */
  lemma TextUntouched(mode: string, highContrast: bool)
    ensures EffectiveColors(mode, highContrast)["text"] == "#ffffff"
  {
    EffectiveColorsOverlay(mode, highContrast);
    TextNotOverridden(mode);
    assert "text" in Colors && Colors["text"] == "#ffffff";
  }

  /** `get_font_sizes`: the entry of the current scale, the medium entry
      for an unknown scale; every entry has base < subheading < heading. */
  function FontSizesOf(scale: string): (r: FontSizes)
    ensures r.base < r.subheading < r.heading
    ensures r.base >= 14
    ensures scale in FontScales ==> r == FontScales[scale]
    ensures scale !in FontScales ==> r == FontSizes(16, 24, 18)
  {
    if scale in FontScales then FontScales[scale] else FontScales["medium"]
  }

  // ---------------------------------------------------------------- saved form

  /** The eleven values the manager saves. */
  datatype Settings = Settings(
    fontScale: string,
    highContrast: Json,
    reducedMotion: Json,
    enhancedFocus: Json,
    colorBlindMode: string,
    dyslexiaFont: Json,
    customCursor: string,
    readingRuler: Json,
    letterSpacing: Json,
    wordSpacing: Json,
    lineHeight: Json)

  const Defaults: Settings := Settings(
    "medium", JBool(false), JBool(false), JBool(false), "none", JBool(false),
    "default", JBool(false), JInt(0), JInt(0), JInt(0))

  /** A spacing as the setters and the loader leave it: a non-negative
      `int`, or `True`, which `max(0, True)` keeps. */
  predicate SpacingValue(j: Json)
  {
    (j.JInt? && j.i >= 0) || j == JBool(true)
  }

  /** What the manager maintains: each choice is a key of its table and
      each spacing is floored at 0. */
  predicate ValidSettings(s: Settings)
  {
    && s.fontScale in FontScales
    && s.colorBlindMode in ColorBlindModes
    && s.customCursor in CustomCursors
    && SpacingValue(s.letterSpacing) && SpacingValue(s.wordSpacing) && SpacingValue(s.lineHeight)
  }

  /** Every flag a `bool` and every spacing an `int`, as the setters store
      them. */
  predicate Typed(s: Settings)
  {
    && s.highContrast.JBool? && s.reducedMotion.JBool? && s.enhancedFocus.JBool?
    && s.dyslexiaFont.JBool? && s.readingRuler.JBool?
    && s.letterSpacing.JInt? && s.wordSpacing.JInt? && s.lineHeight.JInt?
  }

  /** `to_dict`. */
  function ToDictOf(s: Settings): map<string, Json>
  {
    map[
      "font_scale" := JStr(s.fontScale),
      "high_contrast" := s.highContrast,
      "reduced_motion" := s.reducedMotion,
      "enhanced_focus" := s.enhancedFocus,
      "color_blind_mode" := JStr(s.colorBlindMode),
      "dyslexia_font" := s.dyslexiaFont,
      "custom_cursor" := JStr(s.customCursor),
      "reading_ruler" := s.readingRuler,
      "letter_spacing" := s.letterSpacing,
      "word_spacing" := s.wordSpacing,
      "line_height" := s.lineHeight]
  }

  /** `data.get(key, default)`. */
  function Get(data: map<string, Json>, key: string, default: Json): Json
  {
    if key in data then data[key] else default
  }

  /** One step of the first loop of `load_from_dict`: a truthy saved value
      that is a key of the table replaces the choice; a truthy list or
      dictionary cannot be looked up in the table and raises. */
  function LoadChoice(data: map<string, Json>, key: string, table: set<string>, current: string): (r: Result<string>)
    ensures r.Err? <==> key in data && Truthy(data[key]) && (data[key].JArr? || data[key].JObj?)
    ensures r.Err? ==> r.error == TypeError
    ensures r.Ok? ==> r.value == current || (r.value in table && key in data && data[key] == JStr(r.value))
  {
    var val := Get(data, key, JNull);
    if !Truthy(val) then Ok(current)
    else match val
      case JStr(s) => if s in table && s != current then Ok(s) else Ok(current)
      case JArr(_) => Err(TypeError)
      case JObj(_) => Err(TypeError)
      case _ => Ok(current)
  }

  /** One step of the second loop: the saved value, `False` when missing,
      is stored unless it already equals the flag. */
  function LoadFlag(data: map<string, Json>, key: string, current: Json): (r: Json)
    ensures PyEq(r, Get(data, key, JBool(false)))
    ensures Truthy(r) == Truthy(Get(data, key, JBool(false)))
    ensures r == current || r == Get(data, key, JBool(false))
  {
    var val := Get(data, key, JBool(false));
    if !PyEq(val, current) then PyEqReflexive(val); val
    else PyEqSymmetric(val, current); PyEqTruthy(val, current); current
  }

  /** Whether the third loop stores into a spacing: the saved value, `0`
      when missing, is an `int` that differs from the spacing. */
  predicate SpacingSet(data: map<string, Json>, key: string, current: Json)
  {
    var val := Get(data, key, JInt(0));
    IsInt(val) && !PyEq(val, current)
  }

  /** One step of the third loop: the stored value is floored at 0 and has
      no upper bound. */
  function LoadSpacing(data: map<string, Json>, key: string, current: Json): (r: Json)
    ensures SpacingSet(data, key, current) ==> IsInt(r) && NumberOf(r) == (var n := NumberOf(Get(data, key, JInt(0))); if n < 0 then 0 else n)
    ensures !SpacingSet(data, key, current) ==> r == current
  {
    if SpacingSet(data, key, current) then FloorZero(Get(data, key, JInt(0))) else current
  }

  /** The outcome of `load_from_dict`: the settings after the call, whether
      it raised, and whether its `changed` flag was set. */
  datatype Loaded = Loaded(after: Settings, raised: bool, changed: bool)

  /** Whether the second loop stores into a flag. */
  predicate FlagSet(data: map<string, Json>, key: string, current: Json)
  {
    !PyEq(Get(data, key, JBool(false)), current)
  }

  predicate AnyFlagSet(data: map<string, Json>, s: Settings)
  {
    || FlagSet(data, "high_contrast", s.highContrast)
    || FlagSet(data, "reduced_motion", s.reducedMotion)
    || FlagSet(data, "enhanced_focus", s.enhancedFocus)
    || FlagSet(data, "dyslexia_font", s.dyslexiaFont)
    || FlagSet(data, "reading_ruler", s.readingRuler)
  }

  function LoadFlags(data: map<string, Json>, s: Settings): Settings
  {
    s.(highContrast := LoadFlag(data, "high_contrast", s.highContrast),
       reducedMotion := LoadFlag(data, "reduced_motion", s.reducedMotion),
       enhancedFocus := LoadFlag(data, "enhanced_focus", s.enhancedFocus),
       dyslexiaFont := LoadFlag(data, "dyslexia_font", s.dyslexiaFont),
       readingRuler := LoadFlag(data, "reading_ruler", s.readingRuler))
  }

  function LoadSpacings(data: map<string, Json>, s: Settings): Settings
  {
    s.(letterSpacing := LoadSpacing(data, "letter_spacing", s.letterSpacing),
       wordSpacing := LoadSpacing(data, "word_spacing", s.wordSpacing),
       lineHeight := LoadSpacing(data, "line_height", s.lineHeight))
  }

  predicate AnySpacingSet(data: map<string, Json>, s: Settings)
  {
    || SpacingSet(data, "letter_spacing", s.letterSpacing)
    || SpacingSet(data, "word_spacing", s.wordSpacing)
    || SpacingSet(data, "line_height", s.lineHeight)
  }

  /** The first loop of `load_from_dict`: the three choices in table
      order; an exception stops the loop with the earlier choices already
      stored. */
  function LoadChoices(s: Settings, data: map<string, Json>): (r: Loaded)
    ensures r.changed <==> r.after != s
  {
    var fs := LoadChoice(data, "font_scale", FontScales.Keys, s.fontScale);
    if fs.Err? then Loaded(s, true, false)
    else
      var s1 := s.(fontScale := fs.value);
      var cb := LoadChoice(data, "color_blind_mode", ColorBlindModes, s.colorBlindMode);
      if cb.Err? then Loaded(s1, true, s1 != s)
      else
        var s2 := s1.(colorBlindMode := cb.value);
        var cc := LoadChoice(data, "custom_cursor", CustomCursors, s.customCursor);
        if cc.Err? then Loaded(s2, true, s2 != s)
        else
          var s3 := s2.(customCursor := cc.value);
          Loaded(s3, false, s3 != s)
  }

  /** `load_from_dict` on the saved values: the choices, then the five
      flags, then the three spacings; `changed` when any of them was
      stored. */
  function Load(s: Settings, data: map<string, Json>): Loaded
  {
    var c := LoadChoices(s, data);
    if c.raised then c
    else
      var f := LoadFlags(data, c.after);
      Loaded(LoadSpacings(data, f), false, c.changed || AnyFlagSet(data, c.after) || AnySpacingSet(data, f))
  }

  /** Loading keeps the manager's invariant, whatever the dictionary holds. */
  lemma LoadKeepsValid(s: Settings, data: map<string, Json>)
    requires ValidSettings(s)
    ensures ValidSettings(Load(s, data).after)
  {
    ChoicesKeepValid(s, data);
    var c := LoadChoices(s, data);
    if !c.raised {
      SpacingsKeepValid(LoadFlags(data, c.after), data);
    }
  }

  lemma ChoicesKeepValid(s: Settings, data: map<string, Json>)
    requires ValidSettings(s)
    ensures ValidSettings(LoadChoices(s, data).after)
  {
  }

  lemma SpacingsKeepValid(s: Settings, data: map<string, Json>)
    requires ValidSettings(s)
    ensures ValidSettings(LoadSpacings(data, s))
  {
  }

  /** A choice whose saved value cannot be looked up in its table. */
  predicate Unhashable(data: map<string, Json>, key: string)
  {
    key in data && Truthy(data[key]) && (data[key].JArr? || data[key].JObj?)
  }

  /** An exception happens exactly when one of the three choices holds a
      non-empty list or dictionary, and leaves every flag and spacing as it
      was. */
  lemma LoadRaises(s: Settings, data: map<string, Json>)
    ensures Load(s, data).raised <==>
      Unhashable(data, "font_scale") || Unhashable(data, "color_blind_mode") || Unhashable(data, "custom_cursor")
    ensures var r := Load(s, data);
      r.raised ==> r.after == s.(fontScale := r.after.fontScale, colorBlindMode := r.after.colorBlindMode)
  {
  }

  /** A dictionary holding a settings value's three choices under their
      saved keys. */
  predicate SavesChoices(data: map<string, Json>, s: Settings)
  {
    && "font_scale" in data && data["font_scale"] == JStr(s.fontScale)
    && "color_blind_mode" in data && data["color_blind_mode"] == JStr(s.colorBlindMode)
    && "custom_cursor" in data && data["custom_cursor"] == JStr(s.customCursor)
  }

  /** A dictionary holding a settings value's five flags. */
  predicate SavesFlags(data: map<string, Json>, s: Settings)
  {
    && "high_contrast" in data && data["high_contrast"] == s.highContrast
    && "reduced_motion" in data && data["reduced_motion"] == s.reducedMotion
    && "enhanced_focus" in data && data["enhanced_focus"] == s.enhancedFocus
    && "dyslexia_font" in data && data["dyslexia_font"] == s.dyslexiaFont
    && "reading_ruler" in data && data["reading_ruler"] == s.readingRuler
  }

  /** A dictionary holding a settings value's three spacings. */
  predicate SavesSpacings(data: map<string, Json>, s: Settings)
  {
    && "letter_spacing" in data && data["letter_spacing"] == s.letterSpacing
    && "word_spacing" in data && data["word_spacing"] == s.wordSpacing
    && "line_height" in data && data["line_height"] == s.lineHeight
  }

  lemma ToDictSaves(s: Settings)
    ensures SavesChoices(ToDictOf(s), s) && SavesFlags(ToDictOf(s), s) && SavesSpacings(ToDictOf(s), s)
  {
  }

  /** Loading saved valid choices takes each of them. */
  lemma ChoicesRoundTrip(current: Settings, saved: Settings, data: map<string, Json>)
    requires ValidSettings(saved) && SavesChoices(data, saved)
    ensures var c := LoadChoices(current, data);
      && !c.raised
      && c.after == current.(fontScale := saved.fontScale, colorBlindMode := saved.colorBlindMode,
                             customCursor := saved.customCursor)
  {
  }

  /** Loading saved flags makes each flag equal to the saved one. */
  lemma FlagsRoundTrip(s: Settings, saved: Settings, data: map<string, Json>)
    requires SavesFlags(data, saved)
    ensures var f := LoadFlags(data, s);
      && PyEq(f.highContrast, saved.highContrast)
      && PyEq(f.reducedMotion, saved.reducedMotion)
      && PyEq(f.enhancedFocus, saved.enhancedFocus)
      && PyEq(f.dyslexiaFont, saved.dyslexiaFont)
      && PyEq(f.readingRuler, saved.readingRuler)
      && (Typed(s) && Typed(saved) ==>
            f == s.(highContrast := saved.highContrast, reducedMotion := saved.reducedMotion,
                    enhancedFocus := saved.enhancedFocus, dyslexiaFont := saved.dyslexiaFont,
                    readingRuler := saved.readingRuler))
  {
  }

  /** Loading saved valid spacings makes each spacing equal to the saved
      one. */
  lemma SpacingsRoundTrip(s: Settings, saved: Settings, data: map<string, Json>)
    requires ValidSettings(saved) && SavesSpacings(data, saved)
    ensures var g := LoadSpacings(data, s);
      && PyEq(g.letterSpacing, saved.letterSpacing)
      && PyEq(g.wordSpacing, saved.wordSpacing)
      && PyEq(g.lineHeight, saved.lineHeight)
      && (Typed(s) && Typed(saved) ==>
            g == s.(letterSpacing := saved.letterSpacing, wordSpacing := saved.wordSpacing,
                    lineHeight := saved.lineHeight))
  {
  }

  /** `load_from_dict(to_dict())`: saving one manager's settings and loading
      them into another restores all eleven values, up to Python equality
      for the flags and spacings and exactly when both hold `bool` flags and
      `int` spacings. */
  lemma LoadRoundTrip(current: Settings, saved: Settings)
    requires ValidSettings(saved)
    ensures var r := Load(current, ToDictOf(saved));
      && !r.raised
      && r.after.fontScale == saved.fontScale
      && r.after.colorBlindMode == saved.colorBlindMode
      && r.after.customCursor == saved.customCursor
      && PyEq(r.after.highContrast, saved.highContrast)
      && PyEq(r.after.reducedMotion, saved.reducedMotion)
      && PyEq(r.after.enhancedFocus, saved.enhancedFocus)
      && PyEq(r.after.dyslexiaFont, saved.dyslexiaFont)
      && PyEq(r.after.readingRuler, saved.readingRuler)
      && PyEq(r.after.letterSpacing, saved.letterSpacing)
      && PyEq(r.after.wordSpacing, saved.wordSpacing)
      && PyEq(r.after.lineHeight, saved.lineHeight)
    ensures Typed(current) && Typed(saved) ==> Load(current, ToDictOf(saved)).after == saved
  {
    var data := ToDictOf(saved);
    ToDictSaves(saved);
    ChoicesRoundTrip(current, saved, data);
    var c := LoadChoices(current, data);
    FlagsRoundTrip(c.after, saved, data);
    SpacingsRoundTrip(LoadFlags(data, c.after), saved, data);
  }

  /** Keys missing from the dictionary keep the choices, turn the flags off
      and the spacings to 0. */
  lemma LoadEmpty(s: Settings)
    requires ValidSettings(s)
    ensures var r := Load(s, map[]);
      && !r.raised
      && r.after.fontScale == s.fontScale && r.after.colorBlindMode == s.colorBlindMode
      && r.after.customCursor == s.customCursor
      && !Truthy(r.after.highContrast) && !Truthy(r.after.reducedMotion) && !Truthy(r.after.enhancedFocus)
      && !Truthy(r.after.dyslexiaFont) && !Truthy(r.after.readingRuler)
      && r.after.letterSpacing == JInt(0) && r.after.wordSpacing == JInt(0) && r.after.lineHeight == JInt(0)
  {
  }

  /** A saved spacing is floored at 0 and not clamped from above. */
  lemma LoadSpacingUnclamped(s: Settings, data: map<string, Json>, n: int)
    requires ValidSettings(s)
    requires "letter_spacing" in data && data["letter_spacing"] == JInt(n)
    ensures var r := Load(s, data);
      !r.raised ==> IsInt(r.after.letterSpacing) && NumberOf(r.after.letterSpacing) == if n < 0 then 0 else n
  {
    var c := LoadChoices(s, data);
    if !c.raised {
      var f := LoadFlags(data, c.after);
      assert Load(s, data).after.letterSpacing == LoadSpacing(data, "letter_spacing", f.letterSpacing);
    }
  }

  /** A negative saved spacing sets `changed`, and so emits, although the
      floored value equals the current one. */
  lemma NegativeSpacingEmits(s: Settings, n: int)
    requires ValidSettings(s) && Typed(s) && s.letterSpacing == JInt(0) && n < 0
    ensures Load(s, ToDictOf(s)["letter_spacing" := JInt(n)]) == Loaded(s, false, true)
  {
    var data := ToDictOf(s)["letter_spacing" := JInt(n)];
    ToDictSaves(s);
    assert SavesChoices(data, s) && SavesFlags(data, s);
    assert data["word_spacing"] == s.wordSpacing && data["line_height"] == s.lineHeight;
    NegativeSpacingLoad(s, n, data);
  }

  lemma NegativeSpacingLoad(s: Settings, n: int, data: map<string, Json>)
    requires ValidSettings(s) && Typed(s) && s.letterSpacing == JInt(0) && n < 0
    requires SavesChoices(data, s) && SavesFlags(data, s)
    requires "letter_spacing" in data && data["letter_spacing"] == JInt(n)
    requires "word_spacing" in data && data["word_spacing"] == s.wordSpacing
    requires "line_height" in data && data["line_height"] == s.lineHeight
    ensures Load(s, data) == Loaded(s, false, true)
  {
    ChoicesRoundTrip(s, s, data);
    FlagsRoundTrip(s, s, data);
    assert LoadFlags(data, s) == s;
    assert SpacingSet(data, "letter_spacing", s.letterSpacing);
  }

  // ---------------------------------------------------------------- the manager

  class AccessibilityManager {
    var fontScale: string
    var highContrast: Json
    var reducedMotion: Json
    var enhancedFocus: Json
    var colorBlindMode: string
    var dyslexiaFont: Json
    var customCursor: string
    var readingRuler: Json
    var letterSpacing: Json
    var wordSpacing: Json
    var lineHeight: Json
    var roleAccent: Option<string>
    /** How many times `settings_changed` has been emitted. */
    var emitted: nat

    function Snap(): Settings
      reads this
    {
      Settings(fontScale, highContrast, reducedMotion, enhancedFocus, colorBlindMode,
               dyslexiaFont, customCursor, readingRuler, letterSpacing, wordSpacing, lineHeight)
    }

    predicate Valid()
      reads this
    {
      ValidSettings(Snap())
    }

    constructor()
      ensures Snap() == Defaults && roleAccent == None && emitted == 0
      ensures Valid() && Typed(Snap())
    {
      fontScale := "medium";
      highContrast := JBool(false);
      reducedMotion := JBool(false);
      enhancedFocus := JBool(false);
      colorBlindMode := "none";
      dyslexiaFont := JBool(false);
      customCursor := "default";
      readingRuler := JBool(false);
      letterSpacing := JInt(0);
      wordSpacing := JInt(0);
      lineHeight := JInt(0);
      roleAccent := None;
      emitted := 0;
    }

    // -- setters: each stores and emits once when the value changes, and
    //    otherwise does nothing

    method SetFontScale(scale: string)
      modifies this
      ensures var changes := scale in FontScales && scale != old(fontScale);
        && Snap() == old(Snap()).(fontScale := if changes then scale else old(fontScale))
        && emitted == old(emitted) + (if changes then 1 else 0)
      ensures roleAccent == old(roleAccent)
      ensures old(Valid()) ==> Valid()
    {
      if scale in FontScales && scale != fontScale {
        fontScale := scale;
        emitted := emitted + 1;
      }
    }

    method SetColorBlindMode(mode: string)
      modifies this
      ensures var changes := mode in ColorBlindModes && mode != old(colorBlindMode);
        && Snap() == old(Snap()).(colorBlindMode := if changes then mode else old(colorBlindMode))
        && emitted == old(emitted) + (if changes then 1 else 0)
      ensures roleAccent == old(roleAccent)
      ensures old(Valid()) ==> Valid()
    {
      if mode in ColorBlindModes && mode != colorBlindMode {
        colorBlindMode := mode;
        emitted := emitted + 1;
      }
    }

    method SetCustomCursor(cursor: string)
      modifies this
      ensures var changes := cursor in CustomCursors && cursor != old(customCursor);
        && Snap() == old(Snap()).(customCursor := if changes then cursor else old(customCursor))
        && emitted == old(emitted) + (if changes then 1 else 0)
      ensures roleAccent == old(roleAccent)
      ensures old(Valid()) ==> Valid()
    {
      if cursor in CustomCursors && cursor != customCursor {
        customCursor := cursor;
        emitted := emitted + 1;
      }
    }

    method SetHighContrast(enabled: bool)
      modifies this
      ensures var changes := !PyEq(JBool(enabled), old(highContrast));
        && Snap() == old(Snap()).(highContrast := if changes then JBool(enabled) else old(highContrast))
        && emitted == old(emitted) + (if changes then 1 else 0)
      ensures Truthy(highContrast) == enabled
      ensures roleAccent == old(roleAccent)
      ensures old(Valid()) ==> Valid()
    {
      if !PyEq(JBool(enabled), highContrast) {
        highContrast := JBool(enabled);
        emitted := emitted + 1;
      }
    }

    method SetReducedMotion(enabled: bool)
      modifies this
      ensures var changes := !PyEq(JBool(enabled), old(reducedMotion));
        && Snap() == old(Snap()).(reducedMotion := if changes then JBool(enabled) else old(reducedMotion))
        && emitted == old(emitted) + (if changes then 1 else 0)
      ensures Truthy(reducedMotion) == enabled
      ensures roleAccent == old(roleAccent)
      ensures old(Valid()) ==> Valid()
    {
      if !PyEq(JBool(enabled), reducedMotion) {
        reducedMotion := JBool(enabled);
        emitted := emitted + 1;
      }
    }

    method SetEnhancedFocus(enabled: bool)
      modifies this
      ensures var changes := !PyEq(JBool(enabled), old(enhancedFocus));
        && Snap() == old(Snap()).(enhancedFocus := if changes then JBool(enabled) else old(enhancedFocus))
        && emitted == old(emitted) + (if changes then 1 else 0)
      ensures Truthy(enhancedFocus) == enabled
      ensures roleAccent == old(roleAccent)
      ensures old(Valid()) ==> Valid()
    {
      if !PyEq(JBool(enabled), enhancedFocus) {
        enhancedFocus := JBool(enabled);
        emitted := emitted + 1;
      }
    }

    method SetDyslexiaFont(enabled: bool)
      modifies this
      ensures var changes := !PyEq(JBool(enabled), old(dyslexiaFont));
        && Snap() == old(Snap()).(dyslexiaFont := if changes then JBool(enabled) else old(dyslexiaFont))
        && emitted == old(emitted) + (if changes then 1 else 0)
      ensures Truthy(dyslexiaFont) == enabled
      ensures roleAccent == old(roleAccent)
      ensures old(Valid()) ==> Valid()
    {
      if !PyEq(JBool(enabled), dyslexiaFont) {
        dyslexiaFont := JBool(enabled);
        emitted := emitted + 1;
      }
    }

    method SetReadingRuler(enabled: bool)
      modifies this
      ensures var changes := !PyEq(JBool(enabled), old(readingRuler));
        && Snap() == old(Snap()).(readingRuler := if changes then JBool(enabled) else old(readingRuler))
        && emitted == old(emitted) + (if changes then 1 else 0)
      ensures Truthy(readingRuler) == enabled
      ensures roleAccent == old(roleAccent)
      ensures old(Valid()) ==> Valid()
    {
      if !PyEq(JBool(enabled), readingRuler) {
        readingRuler := JBool(enabled);
        emitted := emitted + 1;
      }
    }

    method SetLetterSpacing(px: int)
      modifies this
      ensures var v := JInt(Clamp(0, 8, px)); var changes := !PyEq(v, old(letterSpacing));
        && Snap() == old(Snap()).(letterSpacing := if changes then v else old(letterSpacing))
        && emitted == old(emitted) + (if changes then 1 else 0)
      ensures IsInt(letterSpacing) && NumberOf(letterSpacing) == Clamp(0, 8, px)
      ensures roleAccent == old(roleAccent)
      ensures old(Valid()) ==> Valid()
    {
      var v := Clamp(0, 8, px);
      if !PyEq(JInt(v), letterSpacing) {
        letterSpacing := JInt(v);
        emitted := emitted + 1;
      }
    }

    method SetWordSpacing(px: int)
      modifies this
      ensures var v := JInt(Clamp(0, 12, px)); var changes := !PyEq(v, old(wordSpacing));
        && Snap() == old(Snap()).(wordSpacing := if changes then v else old(wordSpacing))
        && emitted == old(emitted) + (if changes then 1 else 0)
      ensures IsInt(wordSpacing) && NumberOf(wordSpacing) == Clamp(0, 12, px)
      ensures roleAccent == old(roleAccent)
      ensures old(Valid()) ==> Valid()
    {
      var v := Clamp(0, 12, px);
      if !PyEq(JInt(v), wordSpacing) {
        wordSpacing := JInt(v);
        emitted := emitted + 1;
      }
    }

    method SetLineHeight(px: int)
      modifies this
      ensures var v := JInt(Clamp(0, 12, px)); var changes := !PyEq(v, old(lineHeight));
        && Snap() == old(Snap()).(lineHeight := if changes then v else old(lineHeight))
        && emitted == old(emitted) + (if changes then 1 else 0)
      ensures IsInt(lineHeight) && NumberOf(lineHeight) == Clamp(0, 12, px)
      ensures roleAccent == old(roleAccent)
      ensures old(Valid()) ==> Valid()
    {
      var v := Clamp(0, 12, px);
      if !PyEq(JInt(v), lineHeight) {
        lineHeight := JInt(v);
        emitted := emitted + 1;
      }
    }

    /** `set_role_accent`: a role of the accent table is stored and emits
        even when it is already the accent; anything else, `None` included,
        is ignored. */
    method SetRoleAccent(role: Option<string>)
      modifies this
      ensures var changes := role.Some? && role.value in RoleAccents;
        && roleAccent == (if changes then role else old(roleAccent))
        && emitted == old(emitted) + (if changes then 1 else 0)
      ensures Snap() == old(Snap())
    {
      if role.Some? && role.value in RoleAccents {
        roleAccent := role;
        emitted := emitted + 1;
      }
    }

    /** A second identical call of a setter emits nothing. */
    method SetLetterSpacingTwice(px: int)
      modifies this
      ensures emitted <= old(emitted) + 1
      ensures IsInt(letterSpacing) && NumberOf(letterSpacing) == Clamp(0, 8, px)
    {
      SetLetterSpacing(px);
      var between := emitted;
      SetLetterSpacing(px);
      assert emitted == between;
    }

    // -- derived

    /** `get_effective_colors`: a copy of the scheme updated in place. */
    method GetEffectiveColors() returns (colors: map<string, string>)
      ensures colors == EffectiveColors(colorBlindMode, Truthy(highContrast))
      ensures colors.Keys == Colors.Keys
    {
      colors := Colors;
      var overrides := ColorBlindTable(colorBlindMode);
      if |overrides| > 0 {
        colors := colors + overrides;
      }
      if Truthy(highContrast) {
        colors := colors + HighContrastOverrides;
      }
      EffectiveColorsOverlay(colorBlindMode, Truthy(highContrast));
    }

    function GetFontSizes(): (r: FontSizes)
      reads this
      ensures r == FontSizesOf(fontScale)
      ensures Valid() ==> r == FontScales[fontScale]
    {
      FontSizesOf(fontScale)
    }

    function ToDict(): (d: map<string, Json>)
      reads this
      ensures d == ToDictOf(Snap())
    {
      ToDictOf(Snap())
    }

    /** The first loop of `load_from_dict`. */
    method LoadChoicesInto(data: map<string, Json>) returns (error: Option<Exception>, changed: bool)
      modifies this
      ensures var r := LoadChoices(old(Snap()), data);
        && Snap() == r.after
        && (error.Some? <==> r.raised)
        && (error.Some? ==> error.value == TypeError)
        && changed == r.changed
      ensures roleAccent == old(roleAccent) && emitted == old(emitted)
    {
      changed := false;
      error := None;
      var choice := LoadChoice(data, "font_scale", FontScales.Keys, fontScale);
      if choice.Err? {
        return Some(choice.error), changed;
      }
      if choice.value != fontScale {
        fontScale := choice.value;
        changed := true;
      }
      choice := LoadChoice(data, "color_blind_mode", ColorBlindModes, colorBlindMode);
      if choice.Err? {
        return Some(choice.error), changed;
      }
      if choice.value != colorBlindMode {
        colorBlindMode := choice.value;
        changed := true;
      }
      choice := LoadChoice(data, "custom_cursor", CustomCursors, customCursor);
      if choice.Err? {
        return Some(choice.error), changed;
      }
      if choice.value != customCursor {
        customCursor := choice.value;
        changed := true;
      }
    }

    /** The body of the second loop of `load_from_dict` for one flag: the
        saved value, `False` when missing, and whether it is stored. */
    static method LoadFlagStep(data: map<string, Json>, key: string, current: Json) returns (value: Json, stored: bool)
      ensures value == LoadFlag(data, key, current) && stored == FlagSet(data, key, current)
    {
      var val := Get(data, key, JBool(false));
      value, stored := current, false;
      if !PyEq(val, current) {
        value, stored := val, true;
      }
    }

    /** The second loop of `load_from_dict`. */
    method LoadFlagsInto(data: map<string, Json>) returns (changed: bool)
      modifies this
      ensures Snap() == LoadFlags(data, old(Snap()))
      ensures changed == AnyFlagSet(data, old(Snap()))
      ensures roleAccent == old(roleAccent) && emitted == old(emitted)
    {
      var s0 := Snap();
      var hc, set1 := LoadFlagStep(data, "high_contrast", highContrast);
      var rm, set2 := LoadFlagStep(data, "reduced_motion", reducedMotion);
      var ef, set3 := LoadFlagStep(data, "enhanced_focus", enhancedFocus);
      var df, set4 := LoadFlagStep(data, "dyslexia_font", dyslexiaFont);
      var rr, set5 := LoadFlagStep(data, "reading_ruler", readingRuler);
      changed := set1 || set2 || set3 || set4 || set5;
      assert s0.(highContrast := hc, reducedMotion := rm, enhancedFocus := ef,
                 dyslexiaFont := df, readingRuler := rr) == LoadFlags(data, s0);
      StoreFlags(hc, rm, ef, df, rr);
    }

    /** Stores the five flags, leaving every other field alone. */
    method StoreFlags(hc: Json, rm: Json, ef: Json, df: Json, rr: Json)
      modifies this
      ensures Snap() == old(Snap()).(highContrast := hc, reducedMotion := rm, enhancedFocus := ef,
                                     dyslexiaFont := df, readingRuler := rr)
      ensures roleAccent == old(roleAccent) && emitted == old(emitted)
    {
      highContrast, reducedMotion, enhancedFocus, dyslexiaFont, readingRuler := hc, rm, ef, df, rr;
    }

    /** The third loop of `load_from_dict`. */
    method LoadSpacingsInto(data: map<string, Json>) returns (changed: bool)
      modifies this
      ensures Snap() == LoadSpacings(data, old(Snap()))
      ensures changed == AnySpacingSet(data, old(Snap()))
      ensures roleAccent == old(roleAccent) && emitted == old(emitted)
    {
      changed := false;
      var val := Get(data, "letter_spacing", JInt(0));
      if IsInt(val) && !PyEq(val, letterSpacing) {
        letterSpacing := FloorZero(val);
        changed := true;
      }
      val := Get(data, "word_spacing", JInt(0));
      if IsInt(val) && !PyEq(val, wordSpacing) {
        wordSpacing := FloorZero(val);
        changed := true;
      }
      val := Get(data, "line_height", JInt(0));
      if IsInt(val) && !PyEq(val, lineHeight) {
        lineHeight := FloorZero(val);
        changed := true;
      }
    }

    /** `load_from_dict`: the three choices, the five flags and the three
        spacings in turn, then one emission if any of them was stored. A
        choice holding a non-empty list or dictionary raises `TypeError`
        midway, with the earlier choices already stored and no emission. */
    method LoadFromDict(data: map<string, Json>) returns (error: Option<Exception>)
      modifies this
      ensures var r := Load(old(Snap()), data);
        && Snap() == r.after
        && (error.Some? <==> r.raised)
        && (error.Some? ==> error.value == TypeError)
        && emitted == old(emitted) + (if !r.raised && r.changed then 1 else 0)
      ensures roleAccent == old(roleAccent)
    {
      var choicesChanged;
      error, choicesChanged := LoadChoicesInto(data);
      if error.Some? {
        return;
      }
      var flagsChanged := LoadFlagsInto(data);
      var spacingsChanged := LoadSpacingsInto(data);
      if choicesChanged || flagsChanged || spacingsChanged {
        emitted := emitted + 1;
      }
    }
  }
}

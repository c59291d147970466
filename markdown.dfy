/** The Word export's markdown reader: each line of the report becomes one
    document element: an empty paragraph, a heading of level 1 to 3, a
    bullet, or a paragraph of plain and bold runs. The document is the
    sequence of elements added, in order; fonts and styles are not
    modelled. */
module Markdown {
  import opened Text

  datatype Run = Run(text: string, bold: bool)

  datatype Block =
    | Paragraph(runs: seq<Run>)
    | Heading(text: string, level: nat)
    | Bullet(text: string)

  /** Python's `s[2:-2]`: empty when the string is shorter than four. */
  function InnerOfBold(s: string): (r: string)
    ensures |s| >= 4 ==> r == s[2..|s| - 2]
    ensures |s| < 4 ==> r == []
  {
    if |s| >= 4 then s[2..|s| - 2] else []
  }

  /** The runs of an inline-bold paragraph: one per non-empty part of the
      line split at `**`, bold for the parts at odd positions. */
  function Runs(parts: seq<string>): (rs: seq<Run>)
    ensures |rs| <= |parts|
    ensures forall k :: 0 <= k < |rs| ==> rs[k].text != []
  {
    if parts == [] then []
    else
      var n := |parts| - 1;
      Runs(parts[..n]) + (if parts[n] != [] then [Run(parts[n], n % 2 == 1)] else [])
  }

  /** The element one line becomes. The prefixes are tried in the order
      `### `, `## `, `# `, then `- ` and `* `, then a line both starting and
      ending with `**`. */
  function LineBlock(line: string): Block
  {
    StrippedBlock(Strip(line))
  }

  /** The element of a line once stripped. */
  function StrippedBlock(s: string): Block
  {
    if s == [] then Paragraph([])
    else if StartsWith(s, "### ") then Heading(s[4..], 3)
    else if StartsWith(s, "## ") then Heading(s[3..], 2)
    else if StartsWith(s, "# ") then Heading(s[2..], 1)
    else if StartsWith(s, "- ") || StartsWith(s, "* ") then Bullet(s[2..])
    else if StartsWith(s, "**") && EndsWith(s, "**") then Paragraph([Run(InnerOfBold(s), true)])
    else Paragraph(Runs(SplitOn(s, "**")))
  }

  /** The inner loop of `_markdown_to_docx`: a run for each non-empty part. */
  method InlineRuns(s: string) returns (runs: seq<Run>)
    ensures runs == Runs(SplitOn(s, "**"))
  {
    var parts := SplitOn(s, "**");
    runs := [];
    for i := 0 to |parts|
      invariant runs == Runs(parts[..i])
    {
      assert parts[..i + 1][..i] == parts[..i];
      if parts[i] != [] {
        runs := runs + [Run(parts[i], i % 2 == 1)];
      }
    }
    assert parts[..|parts|] == parts;
  }

  /** The body of `_markdown_to_docx`'s loop: the element for one line. */
  method LineToBlock(line: string) returns (block: Block)
    ensures block == LineBlock(line)
  {
    var s := Strip(line);
    if s == [] {
      block := Paragraph([]);
    } else if StartsWith(s, "### ") {
      block := Heading(s[4..], 3);
    } else if StartsWith(s, "## ") {
      block := Heading(s[3..], 2);
    } else if StartsWith(s, "# ") {
      block := Heading(s[2..], 1);
    } else if StartsWith(s, "- ") || StartsWith(s, "* ") {
      block := Bullet(s[2..]);
    } else if StartsWith(s, "**") && EndsWith(s, "**") {
      block := Paragraph([Run(InnerOfBold(s), true)]);
    } else {
      var runs := InlineRuns(s);
      block := Paragraph(runs);
    }
  }

  /** The elements a list of lines becomes, in order, each line read by
      `read`. */
  function Blocks(read: string -> Block, lines: seq<string>): (doc: seq<Block>)
  {
    if lines == [] then [] else Blocks(read, lines[..|lines| - 1]) + [read(lines[|lines| - 1])]
  }

  /** `_markdown_to_docx`: the text is read line by line and each line's
      element is appended to the document. */
  method MarkdownToDocx(text: string) returns (doc: seq<Block>)
    ensures doc == Blocks(LineBlock, SplitOn(text, "\n"))
  {
    var lines := SplitOn(text, "\n");
    doc := [];
    for i := 0 to |lines|
      invariant doc == Blocks(LineBlock, lines[..i])
    {
      var block := LineToBlock(lines[i]);
      assert lines[..i + 1][..i] == lines[..i];
      doc := doc + [block];
    }
    assert lines[..|lines|] == lines;
  }

  /** Exactly one element per line, the `j`-th line's at position `j`. */
  lemma {:induction false} OneBlockPerLine(read: string -> Block, lines: seq<string>)
    ensures |Blocks(read, lines)| == |lines|
    ensures forall j :: 0 <= j < |lines| ==> Blocks(read, lines)[j] == read(lines[j])
  {
    if lines != [] {
      var init := lines[..|lines| - 1];
      OneBlockPerLine(read, init);
      assert forall j :: 0 <= j < |init| ==> init[j] == lines[j];
    }
  }

  /** The lines the text is read as, put back together with newlines, are
      the text: nothing is lost between lines. */
  lemma LinesCoverText(text: string)
    ensures Join("\n", SplitOn(text, "\n")) == text
  {
    JoinSplitOn(text, "\n");
  }

  // ------------------------------------------------------------ properties

  /** `s` with every `**` taken out, scanning left to right. */
  function RemoveBold(s: string): (r: string)
    ensures |r| <= |s|
    decreases |s|
  {
    if |s| < 2 then s
    else if s[..2] == "**" then RemoveBold(s[2..])
    else [s[0]] + RemoveBold(s[1..])
  }

  lemma {:induction false} ConcatSplitOn(s: string)
    ensures Concat(SplitOn(s, "**")) == RemoveBold(s)
    decreases |s|
  {
    if |s| < 2 {
    } else if s[..2] == "**" {
      ConcatSplitOn(s[2..]);
    } else {
      var rest := SplitOn(s[1..], "**");
      ConcatSplitOn(s[1..]);
      var ws := [[s[0]] + rest[0]] + rest[1..];
      assert ws[1..] == rest[1..];
      assert Concat(rest) == rest[0] + Concat(rest[1..]);
    }
  }

  function RunTexts(rs: seq<Run>): (ts: seq<string>)
    ensures |ts| == |rs|
  {
    seq(|rs|, k requires 0 <= k < |rs| => rs[k].text)
  }

  lemma {:induction false} ConcatSnoc(ws: seq<string>, w: string)
    ensures Concat(ws + [w]) == Concat(ws) + w
    decreases |ws|
  {
    if ws == [] {
      assert [w][1..] == [];
    } else {
      assert (ws + [w])[1..] == ws[1..] + [w];
      ConcatSnoc(ws[1..], w);
    }
  }

  lemma {:induction false} ConcatRuns(parts: seq<string>)
    ensures Concat(RunTexts(Runs(parts))) == Concat(parts)
    decreases |parts|
  {
    if parts != [] {
      var n := |parts| - 1;
      ConcatRuns(parts[..n]);
      assert parts == parts[..n] + [parts[n]];
      ConcatSnoc(parts[..n], parts[n]);
      var rs := Runs(parts[..n]);
      if parts[n] != [] {
        assert RunTexts(rs + [Run(parts[n], n % 2 == 1)]) == RunTexts(rs) + [parts[n]];
        ConcatSnoc(RunTexts(rs), parts[n]);
      } else {
        assert rs + [] == rs;
        assert Concat(parts[..n]) + [] == Concat(parts[..n]);
      }
    }
  }

  /** An inline-bold paragraph loses no text: its runs, put together,
      are the stripped line with every `**` removed. */
  lemma InlineRunsKeepText(line: string)
    requires LineBlock(line) == Paragraph(Runs(SplitOn(Strip(line), "**")))
    ensures Concat(RunTexts(LineBlock(line).runs)) == RemoveBold(Strip(line))
  {
    ConcatRuns(SplitOn(Strip(line), "**"));
    ConcatSplitOn(Strip(line));
  }

  // ------------------------------------------------------------ round trip

  function Hashes(level: nat): string
    requires 1 <= level <= 3
  {
    if level == 1 then "#" else if level == 2 then "##" else "###"
  }

  /** The markdown line a heading or bullet is written as. */
  function Render(b: Block): string
    requires b.Heading? ==> 1 <= b.level <= 3
  {
    match b
    case Heading(t, level) => Hashes(level) + " " + t
    case Bullet(t) => "- " + t
    case Paragraph(_) => []
  }

  /** A heading or bullet text that survives a line: non-empty, with no
      white space at either end. */
  predicate Trimmed(t: string)
  {
    t != [] && !IsSpace(t[0]) && !IsSpace(t[|t| - 1])
  }

  lemma StripTrimmed(s: string)
    requires Trimmed(s)
    ensures Strip(s) == s
  {
  }

  /** Headings of every level are read back as written. */
  lemma HeadingRoundTrip(t: string, level: nat)
    requires 1 <= level <= 3 && Trimmed(t)
    ensures LineBlock(Render(Heading(t, level))) == Heading(t, level)
  {
    var s := Render(Heading(t, level));
    assert s == Hashes(level) + " " + t;
    assert s[|s| - 1] == t[|t| - 1];
    assert s[0] == '#';
    StripTrimmed(s);
    assert LineBlock(s) == StrippedBlock(s);
    if level == 1 {
      Heading1RoundTrip(s, t);
    } else if level == 2 {
      Heading2RoundTrip(s, t);
    } else {
      Heading3RoundTrip(s, t);
    }
  }

  lemma Heading1RoundTrip(s: string, t: string)
    requires s == "# " + t
    ensures StrippedBlock(s) == Heading(t, 1)
  {
    assert s[1] == ' ';
    assert !StartsWith(s, "### ") && !StartsWith(s, "## ");
    assert s[..2] == "# " && s[2..] == t;
  }

  lemma Heading2RoundTrip(s: string, t: string)
    requires s == "## " + t
    ensures StrippedBlock(s) == Heading(t, 2)
  {
    assert s[2] == ' ';
    assert !StartsWith(s, "### ");
    assert s[..3] == "## " && s[3..] == t;
  }

  lemma Heading3RoundTrip(s: string, t: string)
    requires s == "### " + t
    ensures StrippedBlock(s) == Heading(t, 3)
  {
    assert s[..4] == "### " && s[4..] == t;
  }

  /** Bullets are read back as written. */
  lemma BulletRoundTrip(t: string)
    requires Trimmed(t)
    ensures LineBlock(Render(Bullet(t))) == Bullet(t)
  {
    var s := Render(Bullet(t));
    assert s == "- " + t;
    assert s[|s| - 1] == t[|t| - 1];
    assert s[0] == '-';
    StripTrimmed(s);
    assert s[..2] == "- ";
    assert s[2..] == t;
  }
}

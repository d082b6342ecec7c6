/**
 * The text side of the annual review PDF: markdown cleaning, the line-by-line
 * markdown-to-paragraph conversion with its buffered list, the status glyphs of
 * the statistics table, and the numbering of the table of contents and the ten
 * review sections with their page breaks.
 */
module Pdf {
  import opened Wrappers
  import opened Text
  import Frames
  import Reports

  /** A paragraph and the name of the style it is set in. */
  datatype Para = Para(text: String, style: String)

  const NoContent: Para := Para("<i>No content available</i>", "APRBody")

  // ------------------------------------------------------------------
  // _clean_markdown
  // ------------------------------------------------------------------

  /**
   * Where a lazy `(.+?)` group that starts at `start` in `s` closes with the
   * delimiter `d`: the first position `j >= from` where `d` occurs, provided no
   * newline (which `.` does not match) comes before it.
   */
  function CloseAt(s: String, d: String, j: nat, from: nat): Option<nat>
    requires |d| > 0
    decreases |s| - j
  {
    if j + |d| > |s| then None
    else if j >= from && s[j..j + |d|] == d then Some(j)
    else if s[j] == '\n' then None
    else CloseAt(s, d, j + 1, from)
  }

  /** A closing position found is an occurrence of the delimiter, at or after both bounds. */
  lemma {:induction false} CloseAtFound(s: String, d: String, j: nat, from: nat)
    requires |d| > 0
    ensures CloseAt(s, d, j, from).Some? ==>
              var k := CloseAt(s, d, j, from).value;
              from <= k && j <= k && k + |d| <= |s| && s[k..k + |d|] == d
    decreases |s| - j
  {
    if j + |d| <= |s| && !(j >= from && s[j..j + |d|] == d) && s[j] != '\n' {
      CloseAtFound(s, d, j + 1, from);
    }
  }

  /** `re.sub(D(.+?)D, pre + r"\1" + post, s)` for a literal delimiter `D`. */
  function Pairs(s: String, d: String, pre: String, post: String): (r: String)
    requires |d| > 0
    decreases |s|
  {
    if s == [] then []
    else if |d| <= |s| && s[..|d|] == d && CloseAt(s, d, |d|, |d| + 1).Some? then
      CloseAtFound(s, d, |d|, |d| + 1);
      var j := CloseAt(s, d, |d|, |d| + 1).value;
      pre + s[|d|..j] + post + Pairs(s[j + |d|..], d, pre, post)
    else [s[0]] + Pairs(s[1..], d, pre, post)
  }

  /** Text in which the delimiter's first character never occurs is left as it is. */
  lemma {:induction false} PairsUnchanged(s: String, d: String, pre: String, post: String)
    requires |d| > 0 && d[0] !in s
    ensures Pairs(s, d, pre, post) == s
    decreases |s|
  {
    if s != [] {
      assert s[0] != d[0];
      assert !(|d| <= |s| && s[..|d|] == d);
      PairsUnchanged(s[1..], d, pre, post);
      assert [s[0]] + s[1..] == s;
    }
  }

  /** Replacing pairs never empties a non-empty text when the opening tag is non-empty. */
  lemma PairsNonEmpty(s: String, d: String, pre: String, post: String)
    requires |d| > 0 && s != [] && pre != []
    ensures Pairs(s, d, pre, post) != []
  {
  }

  const FontOpen: String := "<font face=\"Courier\">"

  /** `_clean_markdown`: bold, then italic, then code spans turned into markup tags. */
  function Clean(text: String): String {
    if text == [] then []
    else
      var bold := Pairs(Pairs(text, "**", "<b>", "</b>"), "__", "<b>", "</b>");
      var italic := Pairs(Pairs(bold, "*", "<i>", "</i>"), "_", "<i>", "</i>");
      Pairs(italic, "`", FontOpen, "</font>")
  }

  /** `_clean_markdown`, one substitution at a time. */
  method CleanMarkdown(text: String) returns (r: String)
    ensures r == Clean(text)
    ensures text == [] ==> r == []
    ensures text != [] ==> r != []
    ensures '*' !in text && '_' !in text && '`' !in text ==> r == text
  {
    if text == [] {
      return [];
    }
    r := text;
    r := Pairs(r, "**", "<b>", "</b>");
    r := Pairs(r, "__", "<b>", "</b>");
    r := Pairs(r, "*", "<i>", "</i>");
    r := Pairs(r, "_", "<i>", "</i>");
    r := Pairs(r, "`", FontOpen, "</font>");
    CleanNonEmpty(text);
    if '*' !in text && '_' !in text && '`' !in text {
      CleanUnchanged(text);
    }
  }

  /** Text with no `*`, `_` or backquote comes back unchanged. */
  lemma CleanUnchanged(text: String)
    requires '*' !in text && '_' !in text && '`' !in text
    ensures Clean(text) == text
  {
    if text != [] {
      PairsUnchanged(text, "**", "<b>", "</b>");
      PairsUnchanged(text, "__", "<b>", "</b>");
      PairsUnchanged(text, "*", "<i>", "</i>");
      PairsUnchanged(text, "_", "<i>", "</i>");
      PairsUnchanged(text, "`", FontOpen, "</font>");
    }
  }

  /** Cleaning a non-empty text gives a non-empty text. */
  lemma CleanNonEmpty(text: String)
    requires text != []
    ensures Clean(text) != []
  {
    var b1 := Pairs(text, "**", "<b>", "</b>");
    PairsNonEmpty(text, "**", "<b>", "</b>");
    var b2 := Pairs(b1, "__", "<b>", "</b>");
    PairsNonEmpty(b1, "__", "<b>", "</b>");
    var i1 := Pairs(b2, "*", "<i>", "</i>");
    PairsNonEmpty(b2, "*", "<i>", "</i>");
    var i2 := Pairs(i1, "_", "<i>", "</i>");
    PairsNonEmpty(i1, "_", "<i>", "</i>");
    PairsNonEmpty(i2, "`", FontOpen, "</font>");
  }

  /** A closed bold pair becomes a `<b>` element. */
  lemma BoldPair(x: String, rest: String)
    requires x != [] && '*' !in x && '\n' !in x
    ensures Pairs("**" + x + "**" + rest, "**", "<b>", "</b>") == "<b>" + x + "</b>" + Pairs(rest, "**", "<b>", "</b>")
  {
    var s := "**" + x + "**" + rest;
    var n := |x| + 2;
    assert s[..2] == "**";
    assert s[n..n + 2] == "**";
    CloseScan(s, "**", 2, 3, n);
    assert s[2..n] == x;
    assert s[n + 2..] == rest;
  }

  /** The scan for a closing delimiter stops at the first occurrence past `from`. */
  lemma {:induction false} CloseScan(s: String, d: String, j: nat, from: nat, k: nat)
    requires |d| > 0 && j <= k && k + |d| <= |s| && from <= k && s[k..k + |d|] == d
    requires forall i :: j <= i < k ==> s[i] != '\n' && (i >= from ==> s[i..i + |d|] != d)
    ensures CloseAt(s, d, j, from) == Some(k)
    decreases k - j
  {
    if j < k {
      assert s[j] != '\n';
      CloseScan(s, d, j + 1, from, k);
    }
  }

  // ------------------------------------------------------------------
  // _parse_markdown_to_elements
  // ------------------------------------------------------------------

  /** What a stripped markdown line is, tested in the order the converter tests it. */
  datatype Line =
    | Blank
    | Subsection(text: String)
    | Section(text: String)
    | Bullet(text: String)
    | Numbered(num: String, text: String)
    | Body(text: String)

  /** `re.match(r'^\d+\.\s', line)`. */
  predicate NumberedPrefix(line: String) {
    var n := DigitRun(line);
    n > 0 && n + 1 < |line| && line[n] == '.' && IsSpace(line[n + 1])
  }

  /** The kind of a stripped line; `ClassifyRules` states the rules it applies. */
  function Classify(line: String): Line
  {
    if line == [] then Blank
    else if StartsWith(line, "### ") then Subsection(line[4..])
    else if StartsWith(line, "## ") then Section(line[3..])
    else if StartsWith(line, "# ") then Section(line[2..])
    else if StartsWith(line, "- ") || StartsWith(line, "* ") then
      assert line == line[..2] + line[2..];
      Bullet(line[2..])
    else if NumberedPrefix(line) then
      var n := DigitRun(line);
      assert line == line[..n] + ['.', line[n + 1]] + line[n + 2..];
      Numbered(line[..n], line[n + 2..])
    else Body(line)
  }

  /** The rules in their order: headers by marker length, then bullets, numbers, body text. */
  lemma ClassifyRules(line: String)
    ensures Classify(line).Blank? <==> line == []
    ensures Classify(line).Subsection? <==> StartsWith(line, "### ")
    ensures Classify(line).Section? <==> !StartsWith(line, "### ") && (StartsWith(line, "## ") || StartsWith(line, "# "))
    ensures Classify(line).Bullet? ==> (StartsWith(line, "- ") || StartsWith(line, "* ")) && line == line[..2] + Classify(line).text
    ensures Classify(line).Numbered? ==> (AllDigits(Classify(line).num) && Classify(line).num != [] && |Classify(line).num| + 2 <= |line|
                             && line == Classify(line).num + ['.', line[|Classify(line).num| + 1]] + Classify(line).text && IsSpace(line[|Classify(line).num| + 1]))
    ensures Classify(line).Body? ==> Classify(line).text == line && !NumberedPrefix(line)
  {
  }

  predicate IsListItem(l: Line) {
    l.Bullet? || l.Numbered?
  }

  /** The paragraphs one line turns into, wherever they end up being flushed. */
  function LineParas(l: Line, baseStyle: String): (ps: seq<Para>)
    ensures |ps| <= 1
  {
    match l
    case Blank => []
    case Subsection(t) => [Para(Clean(t), "SubsectionHeader")]
    case Section(t) => [Para(Clean(t), "SectionHeader")]
    case Bullet(t) => [Para("• " + Clean(t), "APRBullet")]
    case Numbered(n, t) => [Para(n + ". " + Clean(t), "APRBullet")]
    case Body(t) => if Clean(t) != [] then [Para(Clean(t), baseStyle)] else []
  }

  /** The paragraphs of the first `k` lines, in line order. */
  function Expected(lines: seq<String>, k: nat, baseStyle: String): seq<Para>
    requires k <= |lines|
  {
    if k == 0 then []
    else Expected(lines, k - 1, baseStyle) + LineParas(Classify(Strip(lines[k - 1])), baseStyle)
  }

  /** What the converter returns for a markdown text, absent (`None`) or not. */
  function Render(markdown: Option<String>, baseStyle: String): seq<Para> {
    if markdown.None? || markdown.value == [] then [NoContent]
    else
      var lines := Split(markdown.value, '\n');
      Expected(lines, |lines|, baseStyle)
  }

  /**
   * `_parse_markdown_to_elements`: list items wait in `current` until a blank
   * line, a header, a paragraph or the end of the text flushes them.
   */
  method ParseMarkdown(markdown: Option<String>, baseStyle: String) returns (elements: seq<Para>)
    ensures elements == Render(markdown, baseStyle)
  {
    if markdown.None? || markdown.value == [] {
      return [NoContent];
    }
    var lines := Split(markdown.value, '\n');
    ghost var pieces := seq(|lines|, j requires 0 <= j < |lines| => LineParas(Classify(Strip(lines[j])), baseStyle));
    elements := ParseLines(lines, baseStyle, pieces);
    FlattenPieces(lines, baseStyle, pieces, |lines|);
  }

  /** The paragraphs of the first `k` pieces, in order. */
  function Flatten(pieces: seq<seq<Para>>, k: nat): seq<Para>
    requires k <= |pieces|
  {
    if k == 0 then [] else Flatten(pieces, k - 1) + pieces[k - 1]
  }

  /** `pieces[j]` holds the paragraphs of line `j`. */
  predicate PiecesOf(lines: seq<String>, baseStyle: String, pieces: seq<seq<Para>>) {
    && |pieces| == |lines|
    && forall j {:trigger LineParas(Classify(Strip(lines[j])), baseStyle)} :: 0 <= j < |lines| ==>
         pieces[j] == LineParas(Classify(Strip(lines[j])), baseStyle)
  }

  lemma {:induction false} FlattenPieces(lines: seq<String>, baseStyle: String, pieces: seq<seq<Para>>, k: nat)
    requires PiecesOf(lines, baseStyle, pieces) && k <= |lines|
    ensures Flatten(pieces, k) == Expected(lines, k, baseStyle)
    decreases k
  {
    if k > 0 {
      FlattenPieces(lines, baseStyle, pieces, k - 1);
      assert pieces[k - 1] == LineParas(Classify(Strip(lines[k - 1])), baseStyle);
    }
  }

  /** The `for line in lines` loop and the final flush of the waiting list. */
  method ParseLines(lines: seq<String>, baseStyle: String, ghost pieces: seq<seq<Para>>) returns (elements: seq<Para>)
    requires PiecesOf(lines, baseStyle, pieces)
    ensures elements == Flatten(pieces, |lines|)
  {
    elements := [];
    var current: seq<Para> := [];
    var inList := false;
    var i := 0;
    while i < |lines|
      invariant 0 <= i <= |lines|
      invariant inList <==> current != []
      invariant elements + current == Flatten(pieces, i)
    {
      elements, current, inList := ParseLine(lines, i, baseStyle, pieces, elements, current, inList);
      i := i + 1;
    }
    if current != [] {
      elements := elements + current;
    } else {
      assert elements + current == elements;
    }
  }

  /** The body of the converter's loop on line `i`: its paragraphs are piece `i`. */
  method ParseLine(lines: seq<String>, i: nat, baseStyle: String, ghost pieces: seq<seq<Para>>,
                   elements: seq<Para>, current: seq<Para>, inList: bool)
    returns (elements': seq<Para>, current': seq<Para>, inList': bool)
    requires i < |lines| && PiecesOf(lines, baseStyle, pieces)
    requires inList <==> current != []
    requires elements + current == Flatten(pieces, i)
    ensures inList' <==> current' != []
    ensures elements' + current' == Flatten(pieces, i + 1)
  {
    var kind := Classify(Strip(lines[i]));
    elements', current', inList' := AddLine(kind, baseStyle, elements, current, inList);
    assert LineParas(kind, baseStyle) == pieces[i];
  }

  /**
   * One pass of the converter's loop: a list item joins the waiting list; any
   * other line first flushes the list, then adds its own paragraph, if any.
   */
  method AddLine(kind: Line, baseStyle: String, elements: seq<Para>, current: seq<Para>, inList: bool)
    returns (elements': seq<Para>, current': seq<Para>, inList': bool)
    requires inList <==> current != []
    ensures inList' <==> current' != []
    ensures elements' + current' == elements + current + LineParas(kind, baseStyle)
    ensures IsListItem(kind) ==> elements' == elements
    ensures !IsListItem(kind) ==> current' == []
  {
    elements', current', inList' := elements, current, inList;
    if kind.Blank? {
      if inList' && current' != [] {
        elements' := elements' + current';
        current' := [];
        inList' := false;
      }
    } else if IsListItem(kind) {
      inList' := true;
      var text := CleanMarkdown(kind.text);
      var item := if kind.Bullet? then Para("• " + text, "APRBullet") else Para(kind.num + ". " + text, "APRBullet");
      current' := current' + [item];
    } else {
      if inList' && current' != [] {
        elements' := elements' + current';
        current' := [];
        inList' := false;
      }
      var text := CleanMarkdown(kind.text);
      if kind.Subsection? {
        elements' := elements' + [Para(text, "SubsectionHeader")];
      } else if kind.Section? {
        elements' := elements' + [Para(text, "SectionHeader")];
      } else if text != [] {
        elements' := elements' + [Para(text, baseStyle)];
      }
    }
  }

  /** The number of the first `k` lines that are not blank once stripped. */
  function NonBlank(lines: seq<String>, k: nat): nat
    requires k <= |lines|
  {
    if k == 0 then 0
    else NonBlank(lines, k - 1) + (if Strip(lines[k - 1]) == [] then 0 else 1)
  }

  /** A stripped line gives one paragraph unless it is empty. */
  lemma LineParaCount(line: String, baseStyle: String)
    ensures |LineParas(Classify(line), baseStyle)| == if line == [] then 0 else 1
  {
    var l := Classify(line);
    if l.Body? {
      CleanNonEmpty(l.text);
    }
  }

  /** Every non-blank line gives exactly one paragraph, every blank one none. */
  lemma {:induction false} OneParaPerLine(lines: seq<String>, k: nat, baseStyle: String)
    requires k <= |lines|
    ensures |Expected(lines, k, baseStyle)| == NonBlank(lines, k)
    decreases k
  {
    if k > 0 {
      OneParaPerLine(lines, k - 1, baseStyle);
      OneParaStep(lines, k, baseStyle);
    }
  }

  lemma OneParaStep(lines: seq<String>, k: nat, baseStyle: String)
    requires 0 < k <= |lines|
    ensures |Expected(lines, k, baseStyle)| == |Expected(lines, k - 1, baseStyle)| + (if Strip(lines[k - 1]) == [] then 0 else 1)
  {
    LineParaCount(Strip(lines[k - 1]), baseStyle);
  }

  /** The paragraphs of the earlier lines come first: those of the first `j` lines begin those of the first `k`. */
  lemma {:induction false} ParasInLineOrder(lines: seq<String>, j: nat, k: nat, baseStyle: String)
    requires j <= k <= |lines|
    ensures Expected(lines, j, baseStyle) <= Expected(lines, k, baseStyle)
    decreases k
  {
    if j < k {
      ParasInLineOrder(lines, j, k - 1, baseStyle);
    }
  }

  // ------------------------------------------------------------------
  // The statistics table
  // ------------------------------------------------------------------

  const CheckMark: String := "✓"
  const Warning: String := "⚠"

  /** The status column of the yield and QC pass rate rows: met at 95 or above. */
  function Glyph(value: real): (g: String)
    ensures g == CheckMark || g == Warning
    ensures g == CheckMark <==> value >= 95.0
  {
    if value >= 95.0 then CheckMark else Warning
  }

  /** The figures the table reads, `None` where the review lacks the key (read as 0). */
  datatype Figures = Figures(overallYield: Option<real>, overallQcPassRate: Option<real>)

  /** The status column: batches always met, yield and QC pass rate by threshold, no status for complaints and CAPAs. */
  function StatusColumn(fig: Figures): (col: seq<String>)
    ensures |col| == 5 && col[0] == CheckMark && col[3] == "—" && col[4] == "—"
    ensures col[1] == CheckMark <==> fig.overallYield.GetOr(0.0) >= 95.0
    ensures col[2] == CheckMark <==> fig.overallQcPassRate.GetOr(0.0) >= 95.0
  {
    [CheckMark, Glyph(fig.overallYield.GetOr(0.0)), Glyph(fig.overallQcPassRate.GetOr(0.0)), "—", "—"]
  }

  /** A year whose QC results all passed shows the check mark; a year without QC results, the warning. */
  lemma QcGlyphFromRecords(records: seq<Reports.QcRecord>, year: int)
    ensures Frames.Count(records, q => Reports.InYear(year, q)) == 0 ==> Glyph(Reports.OverallQcPassRate(records, year)) == Warning
    ensures (Frames.Count(records, q => Reports.InYear(year, q)) > 0
             && forall i :: 0 <= i < |records| && Reports.InYear(year, records[i]) ==> Reports.PassedInYear(year, records[i]))
            ==> Glyph(Reports.OverallQcPassRate(records, year)) == CheckMark
  {
  }

  // ------------------------------------------------------------------
  // Table of contents and sections
  // ------------------------------------------------------------------

  datatype Item = P(para: Para) | Rule | Space | PageBreak

  /** The table of contents, in order. */
  const TocSections: seq<String> := [
    "Executive Summary", "Production Review", "Quality Review", "Customer Complaints Review",
    "CAPA Review", "Equipment Review", "Stability Review", "Trend Analysis",
    "Conclusions", "Recommendations"]

  /** The sections and the review field each one prints, listed separately from the contents. */
  const SectionMapping: seq<(String, String)> := [
    ("Executive Summary", "executive_summary"),
    ("Production Review", "production_review"),
    ("Quality Review", "quality_review"),
    ("Customer Complaints Review", "complaints_review"),
    ("CAPA Review", "capa_review"),
    ("Equipment Review", "equipment_review"),
    ("Stability Review", "stability_review"),
    ("Trend Analysis", "trend_analysis"),
    ("Conclusions", "conclusions"),
    ("Recommendations", "recommendations")]

  /** The two lists name the same ten sections in the same order. */
  lemma TocMatchesSections()
    ensures |TocSections| == |SectionMapping| == 10
    ensures forall i :: 0 <= i < 10 ==> TocSections[i] == SectionMapping[i].0
  {
  }

  function TocEntry(n: nat, title: String): Item {
    P(Para("<b>" + NatToString(n) + ".</b> " + title, "TOCEntry"))
  }

  /** `_create_toc`: a heading, a spacer, one numbered entry per section, a page break. */
  method CreateToc(sections: seq<String>) returns (elements: seq<Item>)
    ensures |elements| == |sections| + 3
    ensures elements[0] == P(Para("TABLE OF CONTENTS", "SectionHeader")) && elements[1] == Space
    ensures forall i :: 0 <= i < |sections| ==> elements[i + 2] == TocEntry(i + 1, sections[i])
    ensures elements[|sections| + 2] == PageBreak
  {
    elements := [P(Para("TABLE OF CONTENTS", "SectionHeader")), Space];
    var i := 0;
    while i < |sections|
      invariant 0 <= i <= |sections|
      invariant |elements| == i + 2
      invariant elements[0] == P(Para("TABLE OF CONTENTS", "SectionHeader")) && elements[1] == Space
      invariant forall k :: 0 <= k < i ==> elements[k + 2] == TocEntry(k + 1, sections[k])
    {
      elements := elements + [TocEntry(i + 1, sections[i])];
      i := i + 1;
    }
    elements := elements + [PageBreak];
  }

  /** `apr_data.get(key, '')`: a missing field reads as empty text, a `None` one stays `None`. */
  function Field(data: map<String, Option<String>>, key: String): Option<String> {
    if key in data then data[key] else Some("")
  }

  function Paras(ps: seq<Para>): (items: seq<Item>)
    ensures |items| == |ps| && forall i :: 0 <= i < |ps| ==> items[i] == P(ps[i])
  {
    seq(|ps|, i requires 0 <= i < |ps| => P(ps[i]))
  }

  function SectionHeader(n: nat, title: String): Item {
    P(Para(NatToString(n) + ". " + title, "SectionHeader"))
  }

  /** `_create_section`: the numbered header, a rule, the content, a spacer. */
  function SectionBlock(n: nat, title: String, content: Option<String>): seq<Item> {
    [SectionHeader(n, title), Rule] + Paras(Render(content, "APRBody")) + [Space]
  }

  predicate BreakAfter(n: int) {
    n == 1 || n == 3 || n == 6 || n == 8
  }

  /** Section `n` of the review as printed, with the page break that follows the major ones. */
  function SectionItems(n: nat, data: map<String, Option<String>>): seq<Item>
    requires 1 <= n <= |SectionMapping|
  {
    SectionBlock(n, SectionMapping[n - 1].0, Field(data, SectionMapping[n - 1].1))
    + (if BreakAfter(n) then [PageBreak] else [])
  }

  /** Sections 1 to `k`, in order. */
  function SectionsUpTo(k: nat, data: map<String, Option<String>>): seq<Item>
    requires k <= |SectionMapping|
  {
    if k == 0 then [] else SectionsUpTo(k - 1, data) + SectionItems(k, data)
  }

  /** The main-section loop of `generate_apr_pdf`. */
  method MainSections(data: map<String, Option<String>>) returns (elements: seq<Item>)
    ensures elements == SectionsUpTo(10, data)
  {
    elements := [];
    var i := 1;
    while i <= |SectionMapping|
      invariant 1 <= i <= |SectionMapping| + 1
      invariant elements == SectionsUpTo(i - 1, data)
    {
      elements := AddSection(data, i, elements);
      i := i + 1;
    }
  }

  /** One pass of the main-section loop: section `i` appended. */
  method AddSection(data: map<String, Option<String>>, i: nat, elements: seq<Item>) returns (elements': seq<Item>)
    requires 1 <= i <= |SectionMapping|
    ensures elements' == elements + SectionItems(i, data)
  {
    var title := SectionMapping[i - 1].0;
    var key := SectionMapping[i - 1].1;
    var content := ParseMarkdown(Field(data, key), "APRBody");
    elements' := elements + ([SectionHeader(i, title), Rule] + Paras(content) + [Space]);
    if BreakAfter(i) {
      elements' := elements' + [PageBreak];
    }
  }

  /** Each section opens with its number and its table of contents title. */
  lemma SectionOpensNumbered(n: nat, data: map<String, Option<String>>)
    requires 1 <= n <= 10
    ensures SectionItems(n, data)[0] == SectionHeader(n, TocSections[n - 1])
  {
  }

  /** A section ends with a page break exactly when it is section 1, 3, 6 or 8, and has no other. */
  lemma PageBreaksAfterMajorSections(n: nat, data: map<String, Option<String>>)
    requires 1 <= n <= 10
    ensures SectionItems(n, data)[|SectionItems(n, data)| - 1] == PageBreak <==> n in [1, 3, 6, 8]
    ensures forall i :: 0 <= i < |SectionItems(n, data)| - 1 ==> SectionItems(n, data)[i] != PageBreak
  {
    var block := SectionBlock(n, SectionMapping[n - 1].0, Field(data, SectionMapping[n - 1].1));
    assert block[|block| - 1] == Space;
    assert forall i :: 0 <= i < |block| ==> block[i] != PageBreak;
  }
}

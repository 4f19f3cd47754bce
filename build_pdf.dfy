/** The worksheet layout engine of build_pdf.py: the three box renderers,
    each taking the top `y` of its box and returning the top of the next
    one, and `generate_pdf`, which threads that cursor down the page. */
module BuildPdf {
  import opened PyStr
  import opened PdfCanvas
  import opened Records
  import opened Wrap

  const LightGray: real := 0.95
  const LineSpacing: real := 22.0
  const Inch: real := 72.0
  /** ReportLab's `letter` page, in points. */
  const PageWidth: real := 612.0
  const PageHeight: real := 792.0
  const Margin: real := 0.75 * Inch
  const UsableWidth: real := PageWidth - 2.0 * Margin
  /** Vertical gap left below every box. */
  const BoxGap: real := 10.0
  const BoxRadius: real := 8.0
  const TracingFontSize: real := 30.0

  // ------------------------------------------------------------ paragraph box

  /** `draw_rounded_box`: a light-gray filled rounded rectangle hanging from `y`. */
  function RoundedBoxOps(x: real, y: real, width: real, height: real): seq<Op> {
    [SetFillGray(LightGray), RoundRect(x, y - height, width, height, BoxRadius, true), SetFillBlack]
  }

  method DrawRoundedBox(c: Canvas, x: real, y: real, width: real, height: real)
    modifies c
    ensures c.ops == old(c.ops) + RoundedBoxOps(x, y, width, height)
  {
    c.SetFillGray(LightGray);
    c.RoundRect(x, y - height, width, height, BoxRadius, true);
    c.SetFillBlack();
  }

  /** Height of a paragraph box: the wrapped paragraph, two paddings and the title line. */
  function ParagraphBoxHeight(m: Metrics, content: string, width: real, padding: real): real {
    m.paragraphHeight(CapitalizeFirstLetter(content), width - 2.0 * padding) + 2.0 * padding + 20.0
  }

  function ParagraphBoxOps(m: Metrics, title: string, content: string, x: real, y: real, width: real, padding: real): seq<Op> {
    var text := CapitalizeFirstLetter(content);
    var paraHeight := m.paragraphHeight(text, width - 2.0 * padding);
    RoundedBoxOps(x, y, width, paraHeight + 2.0 * padding + 20.0)
    + [ SetFont(HelveticaBold, 12.0),
        DrawString(x + padding, y - padding - 2.0, title),
        DrawParagraph(text, x + padding, y - padding - paraHeight - 10.0) ]
  }

  /** `draw_paragraph_box`. */
  method DrawParagraphBox(c: Canvas, m: Metrics, title: string, content: string,
                          x: real, y: real, width: real, padding: real)
    returns (next: real)
    modifies c
    ensures c.ops == old(c.ops) + ParagraphBoxOps(m, title, content, x, y, width, padding)
    ensures next == y - ParagraphBoxHeight(m, content, width, padding) - BoxGap
  {
    var text := CapitalizeFirstLetter(content);
    var paraHeight := m.paragraphHeight(text, width - 2.0 * padding);
    var boxHeight := paraHeight + 2.0 * padding + 20.0;
    DrawRoundedBox(c, x, y, width, boxHeight);
    c.SetFont(HelveticaBold, 12.0);
    c.DrawString(x + padding, y - padding - 2.0, title);
    c.DrawParagraph(text, x + padding, y - padding - paraHeight - 10.0);
    next := y - boxHeight - 10.0;
  }

  // -------------------------------------------------------------- tracing box

  /** Dashed cursive when `useCursive`, dotted print otherwise. */
  function TracingFont(useCursive: bool): Font {
    if useCursive then LearningCurve else KGPrimaryDots
  }

  /** The lines of the tracing box: the capitalized text wrapped at the
      tracing font, 40 points narrower than the box. */
  function TracingLines(m: Metrics, text: string, width: real, useCursive: bool): seq<string> {
    WrapWords(Words(CapitalizeFirstLetter(text)), m.stringWidth, TracingFont(useCursive), TracingFontSize, width - 40.0)
  }

  /** Each traced line takes the font size plus 10, i.e. 40 points; then two
      10-point paddings and the 20-point title line. */
  function TracingBoxHeight(lineCount: nat): real {
    lineCount as real * 40.0 + 2.0 * 10.0 + 20.0
  }

  /** What is drawn for one traced line whose baseline is `ty`. */
  function TracingRow(x: real, width: real, ty: real, line: string, useCursive: bool): seq<Op> {
    [DrawString(x + 10.0, ty, line)]
    + (if useCursive then [SetLineWidth(1.0), Line(x + 10.0, ty - 5.0, x + width - 10.0, ty - 5.0)] else [])
  }

  /** The number of operations one traced line adds. */
  function TracingRowSize(useCursive: bool): nat {
    if useCursive then 3 else 1
  }

  /** The traced lines, the first on baseline `ty0`, each next one 40 points lower. */
  function TracingRows(lines: seq<string>, x: real, width: real, ty0: real, useCursive: bool): (rows: seq<Op>)
    ensures |rows| == if useCursive then 3 * |lines| else |lines|
  {
    if lines == [] then []
    else
      var k := |lines| - 1;
      TracingRows(lines[..k], x, width, ty0, useCursive)
      + TracingRow(x, width, ty0 - k as real * 40.0, lines[k], useCursive)
  }

  /** The frame, the title and the tracing font of a tracing box of `lineCount` lines. */
  function TracingBoxHead(title: string, lineCount: nat, x: real, y: real, width: real, useCursive: bool): seq<Op> {
    var boxHeight := TracingBoxHeight(lineCount);
    [ RoundRect(x, y - boxHeight, width, boxHeight, BoxRadius, false),
      SetFont(HelveticaBold, 12.0),
      DrawString(x + 10.0, y - 10.0 - 2.0, title),
      SetFont(TracingFont(useCursive), TracingFontSize) ]
  }

  /** The tracing box for already wrapped `lines`. */
  function TracingBoxOps(title: string, lines: seq<string>, x: real, y: real, width: real, useCursive: bool): seq<Op> {
    TracingBoxHead(title, |lines|, x, y, width, useCursive)
    + TracingRows(lines, x, width, y - 10.0 - 30.0, useCursive)
  }

  lemma TracingRowsNext(lines: seq<string>, i: nat, x: real, width: real, ty0: real, useCursive: bool)
    requires i < |lines|
    ensures TracingRows(lines[..i + 1], x, width, ty0, useCursive)
         == TracingRows(lines[..i], x, width, ty0, useCursive)
            + TracingRow(x, width, ty0 - i as real * 40.0, lines[i], useCursive)
  {
    assert lines[..i + 1][..i] == lines[..i];
  }

  /** The loop of `draw_tracing_box` that draws the wrapped lines, 40 points apart. */
  method DrawTracingRows(c: Canvas, lines: seq<string>, x: real, width: real, ty0: real, useCursive: bool)
    modifies c
    ensures c.ops == old(c.ops) + TracingRows(lines, x, width, ty0, useCursive)
  {
    var padding := 10.0;
    var ty := ty0;
    for i := 0 to |lines|
      invariant ty == ty0 - i as real * 40.0
      invariant c.ops == old(c.ops) + TracingRows(lines[..i], x, width, ty0, useCursive)
    {
      TracingRowsNext(lines, i, x, width, ty0, useCursive);
      c.DrawString(x + padding, ty, lines[i]);
      if useCursive {
        var underlineY := ty - 5.0;
        c.SetLineWidth(1.0);
        c.Line(x + padding, underlineY, x + width - padding, underlineY);
      }
      ty := ty - (TracingFontSize + 10.0);
    }
    assert lines[..|lines|] == lines;
  }

  /** The drawing half of `draw_tracing_box`, once the text is wrapped. */
  method DrawTracingLines(c: Canvas, title: string, lines: seq<string>,
                          x: real, y: real, width: real, useCursive: bool)
    modifies c
    ensures c.ops == old(c.ops) + TracingBoxOps(title, lines, x, y, width, useCursive)
  {
    var font := if useCursive then LearningCurve else KGPrimaryDots;
    var fontSize := 30.0;
    var padding := 10.0;
    var boxHeight := |lines| as real * (fontSize + 10.0) + 2.0 * padding + 20.0;
    c.RoundRect(x, y - boxHeight, width, boxHeight, 8.0, false);
    c.SetFont(HelveticaBold, 12.0);
    c.DrawString(x + padding, y - padding - 2.0, title);
    c.SetFont(font, fontSize);
    DrawTracingRows(c, lines, x, width, y - padding - 30.0, useCursive);
  }

  /** `draw_tracing_box`: wraps the capitalized text and draws it. */
  method DrawTracingBox(c: Canvas, m: Metrics, title: string, text: string,
                        x: real, y: real, width: real, useCursive: bool)
    returns (next: real)
    modifies c
    ensures c.ops == old(c.ops) + TracingBoxOps(title, TracingLines(m, text, width, useCursive), x, y, width, useCursive)
    ensures next == y - TracingBoxHeight(|TracingLines(m, text, width, useCursive)|) - BoxGap
  {
    var capitalized := CapitalizeFirstLetter(text);
    var lines := WrapTextLines(capitalized, m.stringWidth, TracingFont(useCursive), TracingFontSize, width - 40.0);
    DrawTracingLines(c, title, lines, x, y, width, useCursive);
    next := y - (|lines| as real * 40.0 + 2.0 * 10.0 + 20.0) - 10.0;
  }

  /** The traced lines draw one string each, and stroke one underline each
      when cursive and none otherwise. */
  lemma {:induction false} TracingRowsCounts(lines: seq<string>, x: real, width: real, ty0: real, useCursive: bool)
    ensures var rows := TracingRows(lines, x, width, ty0, useCursive);
      && |rows| == (if useCursive then 3 * |lines| else |lines|)
      && CountStrings(rows) == |lines|
      && CountLines(rows) == (if useCursive then |lines| else 0)
  {
    if lines != [] {
      var n := |lines| - 1;
      TracingRowsCounts(lines[..n], x, width, ty0, useCursive);
      var init := TracingRows(lines[..n], x, width, ty0, useCursive);
      var row := TracingRow(x, width, ty0 - n as real * 40.0, lines[n], useCursive);
      CountsAppend(init, row);
      if useCursive {
        CountsCons(row[2], []);
        CountsCons(row[1], [row[2]]);
        CountsCons(row[0], [row[1], row[2]]);
        assert row == [row[0]] + [row[1], row[2]];
      } else {
        CountsCons(row[0], []);
        assert row == [row[0]] + [];
      }
    }
  }

  /** Operation `j` of row `k` is operation `j` of `TracingRow` for
      `lines[k]` on baseline `ty0 - 40k`. */
  lemma {:induction false} TracingRowsElement(lines: seq<string>, x: real, width: real, ty0: real, useCursive: bool, k: nat, j: nat)
    requires k < |lines| && j < TracingRowSize(useCursive)
    ensures var w := TracingRowSize(useCursive);
      TracingRows(lines, x, width, ty0, useCursive)[w * k + j]
        == TracingRow(x, width, ty0 - k as real * 40.0, lines[k], useCursive)[j]
  {
    var n := |lines| - 1;
    if k < n {
      TracingRowsElement(lines[..n], x, width, ty0, useCursive, k, j);
      assert lines[..n][k] == lines[k];
    } else {
      assert ty0 - n as real * 40.0 == ty0 - k as real * 40.0;
    }
  }

  /** Row `k` of the traced lines draws `lines[k]` on baseline `ty0 - 40k`;
      when cursive it is followed by a solid underline 5 points below. */
  lemma TracingRowsAt(lines: seq<string>, x: real, width: real, ty0: real, useCursive: bool, k: nat)
    requires k < |lines|
    ensures var rows := TracingRows(lines, x, width, ty0, useCursive);
      var ty := ty0 - k as real * 40.0;
      && (useCursive ==>
            && |rows| == 3 * |lines|
            && rows[3 * k] == DrawString(x + 10.0, ty, lines[k])
            && rows[3 * k + 1] == SetLineWidth(1.0)
            && rows[3 * k + 2] == Line(x + 10.0, ty - 5.0, x + width - 10.0, ty - 5.0))
      && (!useCursive ==> |rows| == |lines| && rows[k] == DrawString(x + 10.0, ty, lines[k]))
  {
    TracingRowsElement(lines, x, width, ty0, useCursive, k, 0);
    if useCursive {
      TracingRowsElement(lines, x, width, ty0, useCursive, k, 1);
      TracingRowsElement(lines, x, width, ty0, useCursive, k, 2);
    }
  }

  /** The head of a tracing box draws one string, the title, and strokes no line. */
  lemma TracingBoxHeadCounts(title: string, lineCount: nat, x: real, y: real, width: real, useCursive: bool)
    ensures var head := TracingBoxHead(title, lineCount, x, y, width, useCursive);
      CountStrings(head) == 1 && CountLines(head) == 0
  {
    var head := TracingBoxHead(title, lineCount, x, y, width, useCursive);
    var a, b, c, d := head[0], head[1], head[2], head[3];
    assert a.RoundRect? && b.SetFont? && c.DrawString? && d.SetFont?;
    CountsCons(d, []);
    assert [d] + [] == [d];
    CountsCons(c, [d]);
    assert [c] + [d] == [c, d];
    CountsCons(b, [c, d]);
    assert [b] + [c, d] == [b, c, d];
    CountsCons(a, [b, c, d]);
    assert head == [a] + [b, c, d];
  }

  /** The tracing box sets the dashed cursive face exactly when cursive is
      asked for and the dotted print face otherwise, draws its title and
      one string per wrapped line, and strokes one underline per line when
      cursive and none otherwise. */
  lemma TracingBoxDraws(title: string, lines: seq<string>, x: real, y: real, width: real, useCursive: bool)
    ensures var ops := TracingBoxOps(title, lines, x, y, width, useCursive);
      && ops[3] == SetFont(if useCursive then LearningCurve else KGPrimaryDots, 30.0)
      && CountStrings(ops) == |lines| + 1
      && CountLines(ops) == (if useCursive then |lines| else 0)
  {
    var head := TracingBoxHead(title, |lines|, x, y, width, useCursive);
    var rows := TracingRows(lines, x, width, y - 10.0 - 30.0, useCursive);
    TracingBoxHeadCounts(title, |lines|, x, y, width, useCursive);
    TracingRowsCounts(lines, x, width, y - 10.0 - 30.0, useCursive);
    CountsAppend(head, rows);
  }

  // ---------------------------------------------------------- handwriting box

  /** Rows of handwriting guides are the line spacing plus 6, i.e. 28
      points, apart; the layout functions write that pitch as `28.0`. */
  function HandwritingBoxHeight(linesCount: int, padding: real): real {
    linesCount as real * 28.0 + 2.0 * padding + 20.0
  }

  /** One row of guides: solid baseline at `ty`, dashed midline 11 points
      above, solid topline 22 points above. */
  function HandwritingRow(x: real, width: real, padding: real, ty: real): seq<Op> {
    [ SetLineWidth(1.0),
      Line(x + padding, ty, x + width - padding, ty),
      SetDash(2.0, 2.0),
      Line(x + padding, ty + LineSpacing / 2.0, x + width - padding, ty + LineSpacing / 2.0),
      SetDash(1.0, 0.0),
      Line(x + padding, ty + LineSpacing, x + width - padding, ty + LineSpacing) ]
  }

  /** `count` rows of guides, the first with baseline `ty0`, each next one 28 points lower. */
  function HandwritingRows(x: real, width: real, padding: real, ty0: real, count: int): (rows: seq<Op>)
    ensures |rows| == if count < 0 then 0 else 6 * count
    decreases count
  {
    if count <= 0 then []
    else HandwritingRows(x, width, padding, ty0, count - 1)
         + HandwritingRow(x, width, padding, ty0 - (count - 1) as real * 28.0)
  }

  function HandwritingBoxOps(title: string, x: real, y: real, width: real, linesCount: int, padding: real): seq<Op> {
    var boxHeight := HandwritingBoxHeight(linesCount, padding);
    [ RoundRect(x, y - boxHeight, width, boxHeight, BoxRadius, false),
      SetFont(HelveticaBold, 12.0),
      DrawString(x + padding, y - padding - 2.0, title) ]
    + HandwritingRows(x, width, padding, y - padding - 28.0, linesCount)
  }

  lemma HandwritingRowsNext(x: real, width: real, padding: real, ty0: real, i: nat)
    ensures HandwritingRows(x, width, padding, ty0, i + 1)
         == HandwritingRows(x, width, padding, ty0, i) + HandwritingRow(x, width, padding, ty0 - i as real * 28.0)
  {
  }

  /** One pass of the loop of `draw_handwriting_box`: the three guides of a row. */
  method DrawHandwritingRow(c: Canvas, x: real, width: real, padding: real, ty: real)
    modifies c
    ensures c.ops == old(c.ops) + HandwritingRow(x, width, padding, ty)
  {
    c.SetLineWidth(1.0);
    c.Line(x + padding, ty, x + width - padding, ty);
    c.SetDash(2.0, 2.0);
    c.Line(x + padding, ty + LineSpacing / 2.0, x + width - padding, ty + LineSpacing / 2.0);
    c.SetDash(1.0, 0.0);
    c.Line(x + padding, ty + LineSpacing, x + width - padding, ty + LineSpacing);
  }

  /** The loop of `draw_handwriting_box`: `count` rows of guides, none when
      `count` is not positive, as `range(count)` yields nothing then. */
  method DrawHandwritingRows(c: Canvas, x: real, width: real, padding: real, ty0: real, count: int)
    modifies c
    ensures c.ops == old(c.ops) + HandwritingRows(x, width, padding, ty0, count)
  {
    var lineHeight := LineSpacing + 6.0;
    var ty := ty0;
    var i := 0;
    while i < count
      invariant 0 <= i && (count >= 0 ==> i <= count) && (count < 0 ==> i == 0)
      invariant ty == ty0 - i as real * 28.0
      invariant c.ops == old(c.ops) + HandwritingRows(x, width, padding, ty0, i)
    {
      HandwritingRowsNext(x, width, padding, ty0, i);
      DrawHandwritingRow(c, x, width, padding, ty);
      AppendAssoc(old(c.ops), HandwritingRows(x, width, padding, ty0, i), HandwritingRow(x, width, padding, ty));
      ty := ty - lineHeight;
      i := i + 1;
    }
  }

  /** `draw_handwriting_box`. */
  method DrawHandwritingBox(c: Canvas, title: string, x: real, y: real, width: real,
                            linesCount: int, padding: real)
    returns (next: real)
    modifies c
    ensures c.ops == old(c.ops) + HandwritingBoxOps(title, x, y, width, linesCount, padding)
    ensures next == y - HandwritingBoxHeight(linesCount, padding) - BoxGap
  {
    var lineHeight := LineSpacing + 6.0;
    var boxHeight := linesCount as real * lineHeight + 2.0 * padding + 20.0;
    c.RoundRect(x, y - boxHeight, width, boxHeight, 8.0, false);
    c.SetFont(HelveticaBold, 12.0);
    c.DrawString(x + padding, y - padding - 2.0, title);
    DrawHandwritingRows(c, x, width, padding, y - padding - 28.0, linesCount);
    next := y - boxHeight - 10.0;
  }

  /** One row of guides strokes three lines and draws no text. */
  lemma HandwritingRowCounts(x: real, width: real, padding: real, ty: real)
    ensures var row := HandwritingRow(x, width, padding, ty);
      |row| == 6 && CountLines(row) == 3 && CountStrings(row) == 0
  {
    var row := HandwritingRow(x, width, padding, ty);
    CountsCons(row[5], []);
    CountsCons(row[4], row[5..]);
    CountsCons(row[3], row[4..]);
    CountsCons(row[2], row[3..]);
    CountsCons(row[1], row[2..]);
    CountsCons(row[0], row[1..]);
    assert row[5..] == [row[5]] + [];
    assert row[4..] == [row[4]] + row[5..];
    assert row[3..] == [row[3]] + row[4..];
    assert row[2..] == [row[2]] + row[3..];
    assert row[1..] == [row[1]] + row[2..];
    assert row == [row[0]] + row[1..];
  }

  /** The handwriting box strokes exactly three guides per row and draws no text. */
  lemma {:induction false} HandwritingRowsCounts(x: real, width: real, padding: real, ty0: real, count: int)
    ensures var rows := HandwritingRows(x, width, padding, ty0, count);
      var n := if count < 0 then 0 else count;
      |rows| == 6 * n && CountLines(rows) == 3 * n && CountStrings(rows) == 0
    decreases count
  {
    if count > 0 {
      HandwritingRowsCounts(x, width, padding, ty0, count - 1);
      var init := HandwritingRows(x, width, padding, ty0, count - 1);
      var ty := ty0 - (count - 1) as real * 28.0;
      HandwritingRowCounts(x, width, padding, ty);
      CountsAppend(init, HandwritingRow(x, width, padding, ty));
    }
  }

  /** Operation `j` of row `k` is operation `j` of `HandwritingRow` with
      baseline `ty0 - 28k`. */
  lemma {:induction false} HandwritingRowsElement(x: real, width: real, padding: real, ty0: real, count: int, k: nat, j: nat)
    requires k < count && j < 6
    ensures HandwritingRows(x, width, padding, ty0, count)[6 * k + j]
         == HandwritingRow(x, width, padding, ty0 - k as real * 28.0)[j]
    decreases count
  {
    if k < count - 1 {
      HandwritingRowsElement(x, width, padding, ty0, count - 1, k, j);
    } else {
      assert ty0 - (count - 1) as real * 28.0 == ty0 - k as real * 28.0;
    }
  }

  /** Row `k` of the handwriting guides has its solid baseline at
      `ty0 - 28k`, its dashed midline 11 points above and its solid topline
      22 points above, each stroked across the box inside the padding. */
  lemma HandwritingRowsAt(x: real, width: real, padding: real, ty0: real, count: int, k: nat)
    requires k < count
    ensures var rows := HandwritingRows(x, width, padding, ty0, count);
      var ty := ty0 - k as real * 28.0;
      && |rows| == 6 * count
      && rows[6 * k] == SetLineWidth(1.0)
      && rows[6 * k + 1] == Line(x + padding, ty, x + width - padding, ty)
      && rows[6 * k + 2] == SetDash(2.0, 2.0)
      && rows[6 * k + 3] == Line(x + padding, ty + 11.0, x + width - padding, ty + 11.0)
      && rows[6 * k + 4] == SetDash(1.0, 0.0)
      && rows[6 * k + 5] == Line(x + padding, ty + 22.0, x + width - padding, ty + 22.0)
  {
    HandwritingRowsElement(x, width, padding, ty0, count, k, 0);
    HandwritingRowsElement(x, width, padding, ty0, count, k, 1);
    HandwritingRowsElement(x, width, padding, ty0, count, k, 2);
    HandwritingRowsElement(x, width, padding, ty0, count, k, 3);
    HandwritingRowsElement(x, width, padding, ty0, count, k, 4);
    HandwritingRowsElement(x, width, padding, ty0, count, k, 5);
  }

  /** The handwriting box draws its title as its only string and strokes
      three guides per row, none when the count is not positive. */
  lemma HandwritingBoxDraws(title: string, x: real, y: real, width: real, linesCount: int, padding: real)
    ensures var ops := HandwritingBoxOps(title, x, y, width, linesCount, padding);
      && CountStrings(ops) == 1
      && CountLines(ops) == (if linesCount < 0 then 0 else 3 * linesCount)
  {
    var ops := HandwritingBoxOps(title, x, y, width, linesCount, padding);
    var rows := HandwritingRows(x, width, padding, y - padding - 28.0, linesCount);
    var head := ops[..3];
    assert ops == head + rows;
    HandwritingRowsCounts(x, width, padding, y - padding - 28.0, linesCount);
    CountsAppend(head, rows);
    CountsCons(head[2], []);
    CountsCons(head[1], [head[2]]);
    CountsCons(head[0], [head[1], head[2]]);
    assert head == [head[0]] + [head[1], head[2]];
  }

  // -------------------------------------------------------------- the record

  /** What `generate_pdf` reads from its record with `data[...]` or uses as a
      string, so that none of its look-ups or string operations can fail. */
  predicate WorksheetRecord(data: map<string, Value>) {
    && "verse" in data && data["verse"].Str?
    && "version" in data && data["version"].Str?
    && "fullVerse" in data && data["fullVerse"].Str?
    && "handwritingLines" in data && data["handwritingLines"].Int?
    && "reflectionQuestion" in data && data["reflectionQuestion"].Str?
    && "imageIdea" in data && data["imageIdea"].Str?
    // traceableVerse is only used, as a string, when the full verse is long
    && ("traceableVerse" in data && WordCount(data["fullVerse"].s) > MaxTraceWords ==> data["traceableVerse"].Str?)
  }

  /** The text of the tracing box: the full verse when it has at most 26
      words, otherwise `traceableVerse`, or the full verse again when that
      key is missing. */
  function TracingText(data: map<string, Value>): (t: string)
    requires WorksheetRecord(data)
    ensures WordCount(data["fullVerse"].s) <= MaxTraceWords ==> t == data["fullVerse"].s
    ensures t == data["fullVerse"].s || ("traceableVerse" in data && data["traceableVerse"] == Str(t))
    ensures WordCount(t) > MaxTraceWords ==> WordCount(data["fullVerse"].s) > MaxTraceWords
    ensures WordCount(data["fullVerse"].s) > MaxTraceWords && "traceableVerse" in data ==> data["traceableVerse"] == Str(t)
    ensures "traceableVerse" !in data ==> t == data["fullVerse"].s
  {
    var full := data["fullVerse"].s;
    var trace := if "traceableVerse" in data && WordCount(full) > MaxTraceWords
                 then data["traceableVerse"].s else full;
    if WordCount(full) <= MaxTraceWords then full else trace
  }

  // ------------------------------------------------------------ header, footer

  /** Whether the two optional header images exist on disk. */
  datatype Assets = Assets(logo: bool, qr: bool)

  const LogoSize: real := 50.0
  const Title: string := "Bible Copywork Worksheet"
  const Attribution: string := "\U{A9} 2025 Faith Sparks Printables \U{B7} For personal use only"

  function VerseDisplay(verse: string, version: string): string {
    verse + " (" + Upper(version) + ")"
  }

  /** 14-point reference line, dropping to 12 points once the display string
      reaches 25 characters. */
  function HeaderFontSize(verse: string, version: string): (size: real)
    ensures size == 12.0 || size == 14.0
    ensures size == 14.0 <==> |verse| + |version| < 22
  {
    if |VerseDisplay(verse, version)| < 25 then 14.0 else 12.0
  }

  /** Everything above the first box, the cursor ending 90 points below the top margin. */
  function HeaderOps(assets: Assets, verse: string, version: string): seq<Op> {
    var y := PageHeight - Margin - 10.0;
    (if assets.logo then [DrawImage("faith_sparks_logo.png", Margin, y - LogoSize, LogoSize, LogoSize)] else [])
    + (if assets.qr then [DrawImage("faithsparks_qr.png", PageWidth - Margin - LogoSize, y - LogoSize, LogoSize, LogoSize)] else [])
    + [ SetFont(HelveticaBold, 18.0),
        DrawCentredString(PageWidth / 2.0, y - 12.0, Title),
        SetFont(HelveticaBold, HeaderFontSize(verse, version)),
        DrawCentredString(PageWidth / 2.0, y - (LogoSize + 10.0), VerseDisplay(verse, version)) ]
  }

  /** The verse part of the footer code: upper-cased, ':' and ' ' turned into '_'. */
  function VerseCode(verse: string, version: string): (code: string)
    ensures |code| == |verse| + 1 + |version|
    ensures forall i :: 0 <= i < |verse| ==>
              code[i] == if verse[i] == ':' || verse[i] == ' ' then '_' else UpperChar(verse[i])
    ensures forall i :: 0 <= i < |verse| ==> code[i] != ':' && code[i] != ' ' && !IsLower(code[i])
    ensures code[|verse|] == '_' && code[|verse| + 1..] == Upper(version)
  {
    Replace(Replace(Upper(verse), ':', '_'), ' ', '_') + "_" + Upper(version)
  }

  function FooterOps(verse: string, version: string): seq<Op> {
    [ SetStrokeGray(0.8),
      SetLineWidth(0.5),
      Rect(0.5 * Inch, 0.5 * Inch, PageWidth - Inch, PageHeight - Inch),
      SetFillBlack,
      DrawRightString(PageWidth - Margin, 0.32 * Inch, "FS-" + VerseCode(verse, version)),
      SetFont(Helvetica, 8.0),
      SetFillGray(0.4),
      DrawCentredString(PageWidth / 2.0, 0.23 * Inch, Attribution),
      Save ]
  }

  // ------------------------------------------------------------- coloring row

  const ColoringBoxWidth: real := 4.5 * Inch
  const ColoringGap: real := 0.4 * Inch
  const ColoringMaxHeight: real := 2.5 * Inch
  /** Width of the label column left of the empty coloring rectangle. */
  const ColoringLabelWidth: real := UsableWidth - ColoringBoxWidth - ColoringGap

  /** Height of the coloring rectangle hanging from `y`: the room left above
      the bottom margin, capped at 2.5 inches (and not clamped at zero). */
  function ColoringBoxHeight(y: real): (h: real)
    ensures h <= ColoringMaxHeight && h <= y - Margin
    ensures h == ColoringMaxHeight || h == y - Margin
  {
    var available := y - 0.75 * Inch;
    if available <= 2.5 * Inch then available else 2.5 * Inch
  }

  /** The label column is a paragraph box sized by its own text; the right
      column is the bare rectangle of height `ColoringBoxHeight(y)`. */
  function ColoringRowOps(m: Metrics, imageIdea: string, y: real): seq<Op> {
    var h := ColoringBoxHeight(y);
    ParagraphBoxOps(m, "Coloring Prompt:", imageIdea, Margin, y, ColoringLabelWidth, 10.0)
    + [ SetLineWidth(1.25),
        RoundRect(Margin + ColoringLabelWidth + ColoringGap, y - h, ColoringBoxWidth, h, BoxRadius, false) ]
  }

  lemma ColoringColumns()
    ensures ColoringLabelWidth == 151.2
    ensures Margin + ColoringLabelWidth + ColoringGap + ColoringBoxWidth == PageWidth - Margin
  {
  }

  // ------------------------------------------------------------------ page

  /** The fields of a record that the page shows; `tracing` is the text
      chosen for the tracing box. */
  datatype Sheet = Sheet(verse: string, version: string, fullVerse: string, tracing: string,
                         handwritingLines: int, reflection: string, imageIdea: string)

  function SheetOf(data: map<string, Value>): Sheet
    requires WorksheetRecord(data)
  {
    Sheet(data["verse"].s, data["version"].s, data["fullVerse"].s, TracingText(data),
          data["handwritingLines"].i, data["reflectionQuestion"].s, data["imageIdea"].s)
  }

  /** The top of each stacked box, from the verse box down to the coloring row. */
  datatype Tops = Tops(verse: real, trace: real, write: real, reflect: real, coloring: real)

  /** Top of the verse box: below the header. */
  const FirstBoxTop: real := PageHeight - Margin - 10.0 - (LogoSize + 10.0) - 20.0

  /** The cursor of `generate_pdf` after each box: every box starts where the
      previous one returned. */
  function PageTops(m: Metrics, s: Sheet, useCursive: bool): Tops {
    var y0 := FirstBoxTop;
    var y1 := y0 - ParagraphBoxHeight(m, s.fullVerse, UsableWidth, 10.0) - BoxGap;
    var y2 := y1 - TracingBoxHeight(|TracingLines(m, s.tracing, UsableWidth, useCursive)|) - BoxGap;
    var y3 := y2 - HandwritingBoxHeight(s.handwritingLines, 10.0) - BoxGap;
    var y4 := y3 - ParagraphBoxHeight(m, s.reflection, UsableWidth, 10.0) - BoxGap;
    Tops(y0, y1, y2, y3, y4)
  }

  /** The verse box and the tracing box. */
  function UpperOps(m: Metrics, s: Sheet, useCursive: bool): seq<Op> {
    var tops := PageTops(m, s, useCursive);
    ParagraphBoxOps(m, "Verse:", s.fullVerse, Margin, tops.verse, UsableWidth, 10.0)
    + TracingBoxOps("Trace it:", TracingLines(m, s.tracing, UsableWidth, useCursive), Margin, tops.trace, UsableWidth, useCursive)
  }

  /** The handwriting box and the reflection box. */
  function LowerOps(m: Metrics, s: Sheet, useCursive: bool): seq<Op> {
    var tops := PageTops(m, s, useCursive);
    HandwritingBoxOps("Now write it yourself:", Margin, tops.write, UsableWidth, s.handwritingLines, 10.0)
    + ParagraphBoxOps(m, "Think about this:", s.reflection, Margin, tops.reflect, UsableWidth, 10.0)
  }

  /** The four stacked boxes between the header and the coloring row. */
  function StackOps(m: Metrics, s: Sheet, useCursive: bool): seq<Op> {
    UpperOps(m, s, useCursive) + LowerOps(m, s, useCursive)
  }

  /** Everything `generate_pdf` draws, in order. */
  function PageOps(m: Metrics, assets: Assets, s: Sheet, useCursive: bool): seq<Op> {
    HeaderOps(assets, s.verse, s.version)
    + StackOps(m, s, useCursive)
    + ColoringRowOps(m, s.imageIdea, PageTops(m, s, useCursive).coloring)
    + FooterOps(s.verse, s.version)
  }

  /** The header part of `generate_pdf`: optional logo and QR code, the
      title, and the reference line. */
  method DrawHeader(c: Canvas, assets: Assets, verse: string, version: string)
    modifies c
    ensures c.ops == old(c.ops) + HeaderOps(assets, verse, version)
  {
    var width := PageWidth;
    var margin := 0.75 * Inch;
    var y := PageHeight - margin - 10.0;
    var logoSize := 50.0;
    ghost var ops0 := c.ops;
    if assets.logo {
      c.DrawImage("faith_sparks_logo.png", margin, y - logoSize, logoSize, logoSize);
    }
    if assets.qr {
      c.DrawImage("faithsparks_qr.png", width - margin - logoSize, y - logoSize, logoSize, logoSize);
    }
    c.SetFont(HelveticaBold, 18.0);
    c.DrawCentredString(width / 2.0, y - 12.0, Title);
    y := y - (logoSize + 10.0);
    var verseDisplay := verse + " (" + Upper(version) + ")";
    c.SetFont(HelveticaBold, if |verseDisplay| < 25 then 14.0 else 12.0);
    c.DrawCentredString(width / 2.0, y, verseDisplay);
  }

  /** The coloring row of `generate_pdf` hanging from `y`. */
  method DrawColoringRow(c: Canvas, m: Metrics, imageIdea: string, y: real)
    modifies c
    ensures c.ops == old(c.ops) + ColoringRowOps(m, imageIdea, y)
  {
    var usableWidth := PageWidth - 2.0 * (0.75 * Inch);
    var availableHeight := y - 0.75 * Inch;
    var boxH := if availableHeight <= 2.5 * Inch then availableHeight else 2.5 * Inch;
    var boxW := 4.5 * Inch;
    var gap := 0.4 * Inch;
    var labelW := usableWidth - boxW - gap;
    var _ := DrawParagraphBox(c, m, "Coloring Prompt:", imageIdea, 0.75 * Inch, y, labelW, 10.0);
    c.SetLineWidth(1.25);
    c.RoundRect(0.75 * Inch + labelW + gap, y - boxH, boxW, boxH, 8.0, false);
  }

  /** The page border, the verse code and the attribution, then `save`. */
  method DrawFooter(c: Canvas, verse: string, version: string)
    modifies c
    ensures c.ops == old(c.ops) + FooterOps(verse, version)
  {
    c.SetStrokeGray(0.8);
    c.SetLineWidth(0.5);
    c.Rect(0.5 * Inch, 0.5 * Inch, PageWidth - Inch, PageHeight - Inch);
    var verseCode := Replace(Replace(Upper(verse), ':', '_'), ' ', '_') + "_" + Upper(version);
    c.SetFillBlack();
    c.DrawRightString(PageWidth - 0.75 * Inch, 0.32 * Inch, "FS-" + verseCode);
    c.SetFont(Helvetica, 8.0);
    c.SetFillGray(0.4);
    c.DrawCentredString(PageWidth / 2.0, 0.23 * Inch, Attribution);
    c.Save();
  }

  /** The verse and tracing boxes of `generate_pdf`; `y` is where the
      handwriting box goes. */
  method DrawUpperBoxes(c: Canvas, m: Metrics, s: Sheet, useCursive: bool) returns (y: real)
    modifies c
    ensures c.ops == old(c.ops) + UpperOps(m, s, useCursive)
    ensures y == PageTops(m, s, useCursive).write
  {
    ghost var tops := PageTops(m, s, useCursive);
    ghost var a := ParagraphBoxOps(m, "Verse:", s.fullVerse, Margin, tops.verse, UsableWidth, 10.0);
    var margin := Margin;
    var usableWidth := UsableWidth;
    y := PageHeight - margin - 10.0 - (50.0 + 10.0) - 20.0;
    y := DrawParagraphBox(c, m, "Verse:", s.fullVerse, margin, y, usableWidth, 10.0);
    assert y == tops.trace;
    assert c.ops == old(c.ops) + a;
    y := DrawTracingBox(c, m, "Trace it:", s.tracing, margin, y, usableWidth, useCursive);
    AppendAssoc(old(c.ops), a, TracingBoxOps("Trace it:", TracingLines(m, s.tracing, UsableWidth, useCursive), Margin, tops.trace, UsableWidth, useCursive));
  }

  /** The handwriting and reflection boxes of `generate_pdf`, from the
      cursor `y` the tracing box left; the result is where the coloring row goes. */
  method DrawLowerBoxes(c: Canvas, m: Metrics, s: Sheet, useCursive: bool, y0: real) returns (y: real)
    requires y0 == PageTops(m, s, useCursive).write
    modifies c
    ensures c.ops == old(c.ops) + LowerOps(m, s, useCursive)
    ensures y == PageTops(m, s, useCursive).coloring
  {
    ghost var tops := PageTops(m, s, useCursive);
    ghost var d := HandwritingBoxOps("Now write it yourself:", Margin, tops.write, UsableWidth, s.handwritingLines, 10.0);
    var margin := Margin;
    var usableWidth := UsableWidth;
    y := DrawHandwritingBox(c, "Now write it yourself:", margin, y0, usableWidth, s.handwritingLines, 10.0);
    assert y == tops.reflect;
    assert c.ops == old(c.ops) + d;
    y := DrawParagraphBox(c, m, "Think about this:", s.reflection, margin, y, usableWidth, 10.0);
    AppendAssoc(old(c.ops), d, ParagraphBoxOps(m, "Think about this:", s.reflection, Margin, tops.reflect, UsableWidth, 10.0));
  }

  /** The stacked boxes of `generate_pdf`, each starting where the previous
      one returned; `y` is where the coloring row goes. */
  method DrawStack(c: Canvas, m: Metrics, s: Sheet, useCursive: bool) returns (y: real)
    modifies c
    ensures c.ops == old(c.ops) + StackOps(m, s, useCursive)
    ensures y == PageTops(m, s, useCursive).coloring
  {
    y := DrawUpperBoxes(c, m, s, useCursive);
    y := DrawLowerBoxes(c, m, s, useCursive, y);
    AppendAssoc(old(c.ops), UpperOps(m, s, useCursive), LowerOps(m, s, useCursive));
  }

  /** `generate_pdf`: renders one record onto a new one-page canvas. */
  method GeneratePdf(data: map<string, Value>, useCursive: bool, m: Metrics, assets: Assets)
    returns (c: Canvas)
    requires WorksheetRecord(data)
    ensures fresh(c)
    ensures c.ops == PageOps(m, assets, SheetOf(data), useCursive)
  {
    var full := data["fullVerse"].s;
    var trace := if "traceableVerse" in data && WordCount(full) > 26 then data["traceableVerse"].s else full;
    if WordCount(full) <= 26 {
      trace := full;
    }
    var s := Sheet(data["verse"].s, data["version"].s, full, trace,
                   data["handwritingLines"].i, data["reflectionQuestion"].s, data["imageIdea"].s);
    assert s == SheetOf(data);
    c := new Canvas();
    DrawHeader(c, assets, s.verse, s.version);
    assert c.ops == HeaderOps(assets, s.verse, s.version);
    var y := DrawStack(c, m, s, useCursive);
    DrawColoringRow(c, m, s.imageIdea, y);
    DrawFooter(c, s.verse, s.version);
  }

  // ---------------------------------------------------------------- properties

  /** With non-negative paragraph heights and handwriting line count, the
      cursor drops after every box by that box's height plus the gap, so by
      more than 50 points each time: the boxes never overlap. */
  lemma CursorDescends(m: Metrics, s: Sheet, useCursive: bool)
    requires ValidMetrics(m) && s.handwritingLines >= 0
    ensures var t := PageTops(m, s, useCursive);
      && t.verse == 648.0
      && t.trace <= t.verse - 50.0
      && t.write <= t.trace - 50.0
      && t.reflect <= t.write - 50.0
      && t.coloring <= t.reflect - 50.0
  {
    var t := PageTops(m, s, useCursive);
    assert m.paragraphHeight(CapitalizeFirstLetter(s.fullVerse), UsableWidth - 20.0) >= 0.0;
    assert m.paragraphHeight(CapitalizeFirstLetter(s.reflection), UsableWidth - 20.0) >= 0.0;
  }
}

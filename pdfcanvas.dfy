/** The slice of ReportLab the worksheet renderer talks to: a canvas that
    records every drawing call it receives, and the two font metrics the
    layout depends on (string width and paragraph height), which are
    supplied by the caller rather than computed here. */
module PdfCanvas {

  /** The fonts the renderer selects: the two built-in Helvetica faces and
      the two registered tracing faces (dotted print and dashed cursive). */
  datatype Font = Helvetica | HelveticaBold | KGPrimaryDots | LearningCurve

  /** `pdfmetrics.stringWidth(text, font, size)`. */
  type StringWidth = (string, Font, real) -> real

  /** Height reported by `Paragraph(text, styles['Normal']).wrap(availWidth, 1000)`. */
  type ParagraphHeight = (string, real) -> real

  datatype Metrics = Metrics(stringWidth: StringWidth, paragraphHeight: ParagraphHeight)

  /** Paragraph heights are never negative, as for any laid-out text. */
  ghost predicate ValidMetrics(m: Metrics) {
    forall text, w :: m.paragraphHeight(text, w) >= 0.0
  }

  /** One canvas call. Coordinates are PDF points, origin bottom-left. */
  datatype Op =
    | SetFont(font: Font, size: real)
    | SetFillGray(gray: real)
    | SetFillBlack
    | SetStrokeGray(gray: real)
    | SetLineWidth(width: real)
    | SetDash(on: real, off: real)
    | DrawString(x: real, y: real, text: string)
    | DrawCentredString(x: real, y: real, text: string)
    | DrawRightString(x: real, y: real, text: string)
    | Line(x1: real, y1: real, x2: real, y2: real)
    | RoundRect(x: real, y: real, width: real, height: real, radius: real, fill: bool)
    | Rect(x: real, y: real, width: real, height: real)
    | DrawParagraph(text: string, x: real, y: real)
    | DrawImage(path: string, x: real, y: real, width: real, height: real)
    | Save

  /** The call draws a text string (`drawString` or its centred/right variants). */
  predicate IsText(op: Op) {
    op.DrawString? || op.DrawCentredString? || op.DrawRightString?
  }

  /** Number of text-drawing calls. */
  function CountStrings(ops: seq<Op>): nat {
    if ops == [] then 0
    else CountStrings(ops[..|ops| - 1]) + (if IsText(ops[|ops| - 1]) then 1 else 0)
  }

  /** Number of `line` strokes. */
  function CountLines(ops: seq<Op>): nat {
    if ops == [] then 0
    else CountLines(ops[..|ops| - 1]) + (if ops[|ops| - 1].Line? then 1 else 0)
  }

  lemma {:induction false} CountsAppend(a: seq<Op>, b: seq<Op>)
    ensures CountStrings(a + b) == CountStrings(a) + CountStrings(b)
    ensures CountLines(a + b) == CountLines(a) + CountLines(b)
    decreases |b|
  {
    if b == [] {
      assert a + b == a;
    } else {
      var b' := b[..|b| - 1];
      CountsAppend(a, b');
      assert (a + b)[..|a + b| - 1] == a + b';
    }
  }

  lemma CountsCons(op: Op, rest: seq<Op>)
    ensures CountStrings([op] + rest) == (if IsText(op) then 1 else 0) + CountStrings(rest)
    ensures CountLines([op] + rest) == (if op.Line? then 1 else 0) + CountLines(rest)
  {
    CountsAppend([op], rest);
    assert [op][..0] == [];
  }

  /** Regrouping a log that was extended piece by piece. */
  lemma AppendAssoc(p: seq<Op>, q: seq<Op>, r: seq<Op>)
    ensures p + (q + r) == p + q + r
  {
  }

  /** A ReportLab canvas for one page; `ops` is everything drawn so far. */
  class Canvas {
    ghost var ops: seq<Op>

    constructor ()
      ensures ops == []
    {
      ops := [];
    }

    method SetFont(font: Font, size: real)
      modifies this
      ensures ops == old(ops) + [Op.SetFont(font, size)]
    {
      ops := ops + [Op.SetFont(font, size)];
    }

    method SetFillGray(gray: real)
      modifies this
      ensures ops == old(ops) + [Op.SetFillGray(gray)]
    {
      ops := ops + [Op.SetFillGray(gray)];
    }

    method SetFillBlack()
      modifies this
      ensures ops == old(ops) + [Op.SetFillBlack]
    {
      ops := ops + [Op.SetFillBlack];
    }

    method SetStrokeGray(gray: real)
      modifies this
      ensures ops == old(ops) + [Op.SetStrokeGray(gray)]
    {
      ops := ops + [Op.SetStrokeGray(gray)];
    }

    method SetLineWidth(width: real)
      modifies this
      ensures ops == old(ops) + [Op.SetLineWidth(width)]
    {
      ops := ops + [Op.SetLineWidth(width)];
    }

    method SetDash(on: real, off: real)
      modifies this
      ensures ops == old(ops) + [Op.SetDash(on, off)]
    {
      ops := ops + [Op.SetDash(on, off)];
    }

    method DrawString(x: real, y: real, text: string)
      modifies this
      ensures ops == old(ops) + [Op.DrawString(x, y, text)]
    {
      ops := ops + [Op.DrawString(x, y, text)];
    }

    method DrawCentredString(x: real, y: real, text: string)
      modifies this
      ensures ops == old(ops) + [Op.DrawCentredString(x, y, text)]
    {
      ops := ops + [Op.DrawCentredString(x, y, text)];
    }

    method DrawRightString(x: real, y: real, text: string)
      modifies this
      ensures ops == old(ops) + [Op.DrawRightString(x, y, text)]
    {
      ops := ops + [Op.DrawRightString(x, y, text)];
    }

    method Line(x1: real, y1: real, x2: real, y2: real)
      modifies this
      ensures ops == old(ops) + [Op.Line(x1, y1, x2, y2)]
    {
      ops := ops + [Op.Line(x1, y1, x2, y2)];
    }

    method RoundRect(x: real, y: real, width: real, height: real, radius: real, fill: bool)
      modifies this
      ensures ops == old(ops) + [Op.RoundRect(x, y, width, height, radius, fill)]
    {
      ops := ops + [Op.RoundRect(x, y, width, height, radius, fill)];
    }

    method Rect(x: real, y: real, width: real, height: real)
      modifies this
      ensures ops == old(ops) + [Op.Rect(x, y, width, height)]
    {
      ops := ops + [Op.Rect(x, y, width, height)];
    }

    /** `Paragraph.drawOn(canvas, x, y)`. */
    method DrawParagraph(text: string, x: real, y: real)
      modifies this
      ensures ops == old(ops) + [Op.DrawParagraph(text, x, y)]
    {
      ops := ops + [Op.DrawParagraph(text, x, y)];
    }

    method DrawImage(path: string, x: real, y: real, width: real, height: real)
      modifies this
      ensures ops == old(ops) + [Op.DrawImage(path, x, y, width, height)]
    {
      ops := ops + [Op.DrawImage(path, x, y, width, height)];
    }

    method Save()
      modifies this
      ensures ops == old(ops) + [Op.Save]
    {
      ops := ops + [Op.Save];
    }
  }
}

/** The greedy word wrap of `wrap_text_lines` (build_pdf.py), the text
    policy helpers next to it, and what is proved about the wrap. */
module Wrap {
  import opened PyStr
  import opened PdfCanvas

  /** `capitalize_first_letter`: upper-cases the first character when it is
      a lower-case letter, and otherwise returns the text unchanged. */
  function CapitalizeFirstLetter(text: string): (r: string)
    ensures |r| == |text|
    ensures forall i :: 1 <= i < |text| ==> r[i] == text[i]
    ensures r == text <==> (text == "" || !IsLower(text[0]))
    ensures text != "" ==> !IsLower(r[0]) && LowerChar(r[0]) == LowerChar(text[0])
  {
    if text != "" && IsLower(text[0]) then [UpperChar(text[0])] + text[1..] else text
  }

  /** Capitalizing an already capitalized text changes nothing. */
  lemma CapitalizeIdempotent(text: string)
    ensures CapitalizeFirstLetter(CapitalizeFirstLetter(text)) == CapitalizeFirstLetter(text)
  {
  }

  /** `tokenize_traceable`: the whitespace-separated words of the text. */
  function TokenizeTraceable(text: string): (words: seq<string>)
    ensures AreWords(words)
    ensures words == [] <==> !(exists i :: 0 <= i < |text| && !IsSpace(text[i]))
    ensures Join(words) == Squeeze(text)
  {
    WordsEmpty(text);
    JoinWords(text);
    Words(text)
  }

  // ------------------------------------------------------------ the wrap

  /** State of the loop in `wrap_text_lines`: the closed lines and `current_line`. */
  datatype WrapState = WrapState(lines: seq<string>, current: string)

  /** The measured width of `s` does not exceed the budget. */
  predicate Fits(sw: StringWidth, font: Font, size: real, maxWidth: real, s: string) {
    sw(s, font, size) <= maxWidth
  }

  /** The candidate line the loop measures when `word` is offered to `current`. */
  function Candidate(current: string, word: string): string {
    if current != "" then Strip(current + " " + word) else word
  }

  /** One iteration of the loop body. */
  function WrapStep(st: WrapState, word: string, sw: StringWidth, font: Font, size: real, maxWidth: real): WrapState {
    var test := Candidate(st.current, word);
    if !Fits(sw, font, size, maxWidth, test) then WrapState(st.lines + [Strip(st.current)], word)
    else WrapState(st.lines, test)
  }

  /** The loop state after the given words have been offered in order. */
  function WrapFold(words: seq<string>, sw: StringWidth, font: Font, size: real, maxWidth: real): WrapState {
    if words == [] then WrapState([], "")
    else WrapStep(WrapFold(words[..|words| - 1], sw, font, size, maxWidth), words[|words| - 1], sw, font, size, maxWidth)
  }

  /** The lines `wrap_text_lines` returns for the given words: the closed
      lines, plus the open line when it is not empty. */
  function WrapWords(words: seq<string>, sw: StringWidth, font: Font, size: real, maxWidth: real): seq<string> {
    var st := WrapFold(words, sw, font, size, maxWidth);
    if st.current != "" then st.lines + [Strip(st.current)] else st.lines
  }

  /** Greedy condition between a line and the first word of the next one:
      adding that word to the line would have exceeded the budget. */
  predicate Overflows(sw: StringWidth, font: Font, size: real, maxWidth: real, line: string, next: string) {
    !Fits(sw, font, size, maxWidth, if line == "" then next else line + " " + next)
  }

  /** What `wrap_text_lines` promises about its result for the words `words`. */
  ghost predicate WrapSpec(words: seq<string>, lines: seq<string>, sw: StringWidth, font: Font, size: real, maxWidth: real) {
    && KeepsWords(words, lines)
    && LinesFit(words, lines, sw, font, size, maxWidth)
    && Greedy(lines, sw, font, size, maxWidth)
  }

  /** No input, no lines; and no word is lost, split or reordered. */
  ghost predicate KeepsWords(words: seq<string>, lines: seq<string>) {
    && (words == [] ==> lines == [])
    && Join(NonEmpty(lines)) == Join(words)
  }

  /** The only empty line is line 0, and it is emitted exactly when the first
      word alone is too wide; every other line fits, or is one word on its own. */
  ghost predicate LinesFit(words: seq<string>, lines: seq<string>, sw: StringWidth, font: Font, size: real, maxWidth: real) {
    && (|words| > 0 && !Fits(sw, font, size, maxWidth, words[0]) ==> |lines| > 0 && lines[0] == "")
    && (forall i :: 0 <= i < |lines| && lines[i] == "" ==>
          i == 0 && |words| > 0 && !Fits(sw, font, size, maxWidth, words[0]))
    && (forall i :: 0 <= i < |lines| && lines[i] != "" ==>
          Fits(sw, font, size, maxWidth, lines[i]) || lines[i] in words)
  }

  /** A line was closed only because the first word of the next line did not fit on it. */
  ghost predicate Greedy(lines: seq<string>, sw: StringWidth, font: Font, size: real, maxWidth: real) {
    forall i :: 0 <= i < |lines| - 1 ==>
      Overflows(sw, font, size, maxWidth, lines[i], TakeWord(lines[i + 1]))
  }

  /** The invariant of the loop of `wrap_text_lines`, in four parts. */
  ghost predicate FoldInv(words: seq<string>, st: WrapState, sw: StringWidth, font: Font, size: real, maxWidth: real) {
    && FoldShape(words, st)
    && FoldText(words, st)
    && FoldLines(words, st, sw, font, size, maxWidth)
    && FoldGreedy(st, sw, font, size, maxWidth)
  }

  /** The open line is empty only before the first word, and is stripped. */
  ghost predicate FoldShape(words: seq<string>, st: WrapState) {
    && (st.current == "" <==> words == [])
    && (words == [] ==> st.lines == [])
    && NoEdgeSpace(st.current)
  }

  /** The closed lines and the open line together hold exactly the words offered. */
  ghost predicate FoldText(words: seq<string>, st: WrapState) {
    Join(NonEmpty(st.lines + [st.current])) == Join(words)
  }

  /** An empty line at 0 exactly when the first word is too wide, and no
      other; every other line fits or is a single word. */
  ghost predicate FoldLines(words: seq<string>, st: WrapState, sw: StringWidth, font: Font, size: real, maxWidth: real) {
    && (|words| > 0 && !Fits(sw, font, size, maxWidth, words[0]) ==> |st.lines| > 0 && st.lines[0] == "")
    && (forall i :: 0 <= i < |st.lines| && st.lines[i] == "" ==>
          i == 0 && |words| > 0 && !Fits(sw, font, size, maxWidth, words[0]))
    && (forall i :: 0 <= i < |st.lines| && st.lines[i] != "" ==>
          Fits(sw, font, size, maxWidth, st.lines[i]) || st.lines[i] in words)
    && (st.current != "" ==> Fits(sw, font, size, maxWidth, st.current) || st.current in words)
  }

  /** Every closed line overflows with the first word of the line after it. */
  ghost predicate FoldGreedy(st: WrapState, sw: StringWidth, font: Font, size: real, maxWidth: real) {
    && (forall i :: 0 <= i < |st.lines| - 1 ==>
          Overflows(sw, font, size, maxWidth, st.lines[i], TakeWord(st.lines[i + 1])))
    && (|st.lines| > 0 ==>
          Overflows(sw, font, size, maxWidth, st.lines[|st.lines| - 1], TakeWord(st.current)))
  }

  /** A word is its own first word. */
  lemma TakeWordOfWord(w: string)
    requires !HasSpace(w)
    ensures TakeWord(w) == w
    decreases |w|
  {
    if w != [] {
      assert !IsSpace(w[0]);
      assert forall i :: 0 <= i < |w[1..]| ==> w[1..][i] == w[i + 1];
      TakeWordOfWord(w[1..]);
    }
  }

  /** Appending a space and more text leaves the first word unchanged. */
  lemma {:induction false} TakeWordSpace(a: string, b: string)
    ensures TakeWord(a + " " + b) == TakeWord(a)
    decreases |a|
  {
    if a == [] {
      assert (a + " " + b)[0] == ' ';
    } else if IsSpace(a[0]) {
      assert (a + " " + b)[0] == a[0];
    } else {
      assert (a + " " + b)[0] == a[0];
      assert (a + " " + b)[1..] == a[1..] + " " + b;
      TakeWordSpace(a[1..], b);
    }
  }

  /** Offering a word to a non-empty, stripped line builds the joined text. */
  lemma CandidateJoins(current: string, word: string)
    requires current != "" && NoEdgeSpace(current)
    requires word != "" && !HasSpace(word)
    ensures Candidate(current, word) == current + " " + word
    ensures NoEdgeSpace(current + " " + word)
  {
    var s := current + " " + word;
    assert s[0] == current[0];
    assert s[|s| - 1] == word[|word| - 1];
    assert !IsSpace(word[|word| - 1]);
    StripNoEdgeSpace(s);
  }

  /** Extending the last line by one word extends the joined text by that word. */
  lemma JoinExtendLast(xs: seq<string>, a: string, w: string)
    ensures Join(xs + [a + " " + w]) == Join(xs + [a]) + " " + w
  {
    JoinAppend(xs, a + " " + w);
    JoinAppend(xs, a);
  }

  /** The first word offered starts the first line (after an empty line 0
      when it alone is too wide). */
  lemma StepFirst(w: string, sw: StringWidth, font: Font, size: real, maxWidth: real)
    requires w != [] && !HasSpace(w)
    ensures FoldInv([w], WrapStep(WrapState([], ""), w, sw, font, size, maxWidth), sw, font, size, maxWidth)
  {
    var st' := WrapStep(WrapState([], ""), w, sw, font, size, maxWidth);
    TakeWordOfWord(w);
    assert Join([w]) == w;
    assert NoEdgeSpace(w) by {
      assert !IsSpace(w[0]);
      assert !IsSpace(w[|w| - 1]);
    }
    if !Fits(sw, font, size, maxWidth, w) {
      assert Strip("") == "";
      assert st' == WrapState([""], w);
      assert st'.lines + [st'.current] == [""] + [w];
      NonEmptyAppend([""], w);
      assert NonEmpty([""]) == [];
    } else {
      assert st' == WrapState([], w);
      NonEmptyAppend([], w);
    }
  }

  /** A word that does not fit closes the current line and opens the next. */
  lemma StepClose(ws: seq<string>, st: WrapState, w: string, sw: StringWidth, font: Font, size: real, maxWidth: real)
    requires AreWords(ws) && w != [] && !HasSpace(w)
    requires FoldInv(ws, st, sw, font, size, maxWidth) && st.current != ""
    requires !Fits(sw, font, size, maxWidth, Candidate(st.current, w))
    ensures FoldInv(ws + [w], WrapStep(st, w, sw, font, size, maxWidth), sw, font, size, maxWidth)
  {
    CandidateJoins(st.current, w);
    StripNoEdgeSpace(st.current);
    var st' := WrapStep(st, w, sw, font, size, maxWidth);
    assert st' == WrapState(st.lines + [st.current], w);
    CloseShape(ws, st, w);
    CloseText(ws, st, w);
    CloseLines(ws, st, w, sw, font, size, maxWidth);
    CloseGreedy(st, w, sw, font, size, maxWidth);
  }

  lemma CloseShape(ws: seq<string>, st: WrapState, w: string)
    requires w != [] && !HasSpace(w)
    requires FoldShape(ws, st) && st.current != ""
    ensures FoldShape(ws + [w], WrapState(st.lines + [st.current], w))
  {
    assert !IsSpace(w[0]);
    assert !IsSpace(w[|w| - 1]);
  }

  lemma CloseText(ws: seq<string>, st: WrapState, w: string)
    requires w != []
    requires FoldShape(ws, st) && FoldText(ws, st) && st.current != ""
    ensures FoldText(ws + [w], WrapState(st.lines + [st.current], w))
  {
    JoinAppend(ws, w);
    var ne := NonEmpty(st.lines + [st.current]);
    NonEmptyAppend(st.lines + [st.current], w);
    JoinAppend(ne, w);
    NonEmptyAppend(st.lines, st.current);
  }

  lemma CloseGreedy(st: WrapState, w: string, sw: StringWidth, font: Font, size: real, maxWidth: real)
    requires !HasSpace(w)
    requires FoldGreedy(st, sw, font, size, maxWidth)
    requires !Fits(sw, font, size, maxWidth, st.current + " " + w)
    requires st.current != ""
    ensures FoldGreedy(WrapState(st.lines + [st.current], w), sw, font, size, maxWidth)
  {
    TakeWordOfWord(w);
    var ls := st.lines + [st.current];
    assert ls[|ls| - 1] == st.current;
    assert forall i :: 0 <= i < |st.lines| ==> ls[i] == st.lines[i];
  }

  lemma CloseLines(ws: seq<string>, st: WrapState, w: string, sw: StringWidth, font: Font, size: real, maxWidth: real)
    requires FoldShape(ws, st) && FoldLines(ws, st, sw, font, size, maxWidth) && st.current != ""
    ensures FoldLines(ws + [w], WrapState(st.lines + [st.current], w), sw, font, size, maxWidth)
  {
    var words := ws + [w];
    var ls := st.lines + [st.current];
    assert words[0] == ws[0];
    assert forall v :: v in ws ==> v in words;
    assert w in words;
    assert forall i :: 0 <= i < |st.lines| ==> ls[i] == st.lines[i];
    assert ls[|st.lines|] == st.current;
  }

  /** A word that fits is appended to the current line. */
  lemma StepExtend(ws: seq<string>, st: WrapState, w: string, sw: StringWidth, font: Font, size: real, maxWidth: real)
    requires AreWords(ws) && w != [] && !HasSpace(w)
    requires FoldInv(ws, st, sw, font, size, maxWidth) && st.current != ""
    requires Fits(sw, font, size, maxWidth, Candidate(st.current, w))
    ensures FoldInv(ws + [w], WrapStep(st, w, sw, font, size, maxWidth), sw, font, size, maxWidth)
  {
    CandidateJoins(st.current, w);
    var test := st.current + " " + w;
    var st' := WrapStep(st, w, sw, font, size, maxWidth);
    assert st' == WrapState(st.lines, test);
    ExtendText(ws, st, w);
    ExtendLines(ws, st, w, sw, font, size, maxWidth);
    ExtendGreedy(st, w, sw, font, size, maxWidth);
  }

  lemma ExtendGreedy(st: WrapState, w: string, sw: StringWidth, font: Font, size: real, maxWidth: real)
    requires FoldGreedy(st, sw, font, size, maxWidth)
    ensures FoldGreedy(WrapState(st.lines, st.current + " " + w), sw, font, size, maxWidth)
  {
    TakeWordSpace(st.current, w);
  }

  lemma ExtendText(ws: seq<string>, st: WrapState, w: string)
    requires FoldShape(ws, st) && FoldText(ws, st) && st.current != ""
    ensures FoldText(ws + [w], WrapState(st.lines, st.current + " " + w))
  {
    JoinAppend(ws, w);
    NonEmptyAppend(st.lines, st.current);
    NonEmptyAppend(st.lines, st.current + " " + w);
    JoinExtendLast(NonEmpty(st.lines), st.current, w);
  }

  lemma ExtendLines(ws: seq<string>, st: WrapState, w: string, sw: StringWidth, font: Font, size: real, maxWidth: real)
    requires FoldShape(ws, st) && FoldLines(ws, st, sw, font, size, maxWidth) && st.current != ""
    requires Fits(sw, font, size, maxWidth, st.current + " " + w)
    ensures FoldLines(ws + [w], WrapState(st.lines, st.current + " " + w), sw, font, size, maxWidth)
  {
    var words := ws + [w];
    assert words[0] == ws[0];
    assert forall v :: v in ws ==> v in words;
  }

  /** The loop invariant holds after every prefix of the words. */
  lemma {:induction false} WrapFoldInv(words: seq<string>, sw: StringWidth, font: Font, size: real, maxWidth: real)
    requires AreWords(words)
    ensures FoldInv(words, WrapFold(words, sw, font, size, maxWidth), sw, font, size, maxWidth)
  {
    if words != [] {
      var ws := words[..|words| - 1];
      var w := words[|words| - 1];
      assert words == ws + [w];
      assert w in words;
      assert AreWords(ws) by {
        forall v | v in ws ensures v != [] && !HasSpace(v) { assert v in words; }
      }
      WrapFoldInv(ws, sw, font, size, maxWidth);
      var st := WrapFold(ws, sw, font, size, maxWidth);
      if st.current == "" {
        StepFirst(w, sw, font, size, maxWidth);
      } else if Fits(sw, font, size, maxWidth, Candidate(st.current, w)) {
        StepExtend(ws, st, w, sw, font, size, maxWidth);
      } else {
        StepClose(ws, st, w, sw, font, size, maxWidth);
      }
    }
  }

  /** The wrap meets its specification for every sequence of words. */
  lemma WrapWordsCorrect(words: seq<string>, sw: StringWidth, font: Font, size: real, maxWidth: real)
    requires AreWords(words)
    ensures WrapSpec(words, WrapWords(words, sw, font, size, maxWidth), sw, font, size, maxWidth)
  {
    WrapFoldInv(words, sw, font, size, maxWidth);
    var st := WrapFold(words, sw, font, size, maxWidth);
    var lines := WrapWords(words, sw, font, size, maxWidth);
    if st.current != "" {
      StripNoEdgeSpace(st.current);
      assert lines == st.lines + [st.current];
      FinishOpenLine(words, st, sw, font, size, maxWidth);
    } else {
      assert lines == [];
      assert st.lines + [st.current] == [] + [""];
      NonEmptyAppend([], "");
    }
  }

  /** Appending the open line to the closed ones meets the specification. */
  lemma FinishOpenLine(words: seq<string>, st: WrapState, sw: StringWidth, font: Font, size: real, maxWidth: real)
    requires FoldInv(words, st, sw, font, size, maxWidth) && st.current != ""
    ensures WrapSpec(words, st.lines + [st.current], sw, font, size, maxWidth)
  {
    FinishLines(words, st, sw, font, size, maxWidth);
    FinishGreedy(st, sw, font, size, maxWidth);
  }

  lemma FinishLines(words: seq<string>, st: WrapState, sw: StringWidth, font: Font, size: real, maxWidth: real)
    requires FoldLines(words, st, sw, font, size, maxWidth) && st.current != ""
    ensures LinesFit(words, st.lines + [st.current], sw, font, size, maxWidth)
  {
    var lines := st.lines + [st.current];
    assert forall i :: 0 <= i < |st.lines| ==> lines[i] == st.lines[i];
    assert lines[|st.lines|] == st.current;
  }

  lemma FinishGreedy(st: WrapState, sw: StringWidth, font: Font, size: real, maxWidth: real)
    requires FoldGreedy(st, sw, font, size, maxWidth)
    ensures Greedy(st.lines + [st.current], sw, font, size, maxWidth)
  {
    var lines := st.lines + [st.current];
    assert forall i :: 0 <= i < |st.lines| ==> lines[i] == st.lines[i];
    assert lines[|st.lines|] == st.current;
  }

  /** Offering one more word is one more step of the loop. */
  lemma WrapFoldNext(words: seq<string>, i: nat, sw: StringWidth, font: Font, size: real, maxWidth: real)
    requires i < |words|
    ensures WrapFold(words[..i + 1], sw, font, size, maxWidth)
         == WrapStep(WrapFold(words[..i], sw, font, size, maxWidth), words[i], sw, font, size, maxWidth)
  {
    assert words[..i + 1][..i] == words[..i];
  }

  /** `wrap_text_lines(text, font, font_size, max_width)`. */
  method WrapTextLines(text: string, sw: StringWidth, font: Font, fontSize: real, maxWidth: real)
    returns (lines: seq<string>)
    ensures lines == WrapWords(TokenizeTraceable(text), sw, font, fontSize, maxWidth)
    ensures WrapSpec(Words(text), lines, sw, font, fontSize, maxWidth)
  {
    var words := TokenizeTraceable(text);
    var currentLine;
    lines, currentLine := WrapLoop(words, sw, font, fontSize, maxWidth);
    if currentLine != "" {
      lines := lines + [Strip(currentLine)];
    }
    WrapTextCorrect(text, sw, font, fontSize, maxWidth);
  }

  /** The loop of `wrap_text_lines`: offers each word in turn to the open
      line, closing it first when the word does not fit. */
  method WrapLoop(words: seq<string>, sw: StringWidth, font: Font, fontSize: real, maxWidth: real)
    returns (lines: seq<string>, currentLine: string)
    ensures WrapState(lines, currentLine) == WrapFold(words, sw, font, fontSize, maxWidth)
  {
    lines := [];
    currentLine := "";
    for i := 0 to |words|
      invariant WrapState(lines, currentLine) == WrapFold(words[..i], sw, font, fontSize, maxWidth)
    {
      var word := words[i];
      var testLine := if currentLine != "" then Strip(currentLine + " " + word) else word;
      WrapFoldNext(words, i, sw, font, fontSize, maxWidth);
      if sw(testLine, font, fontSize) > maxWidth {
        lines := lines + [Strip(currentLine)];
        currentLine := word;
      } else {
        currentLine := testLine;
      }
    }
    assert words[..|words|] == words;
  }

  /** The lines of a text meet the specification for the words of that text. */
  lemma WrapTextCorrect(text: string, sw: StringWidth, font: Font, size: real, maxWidth: real)
    ensures WrapSpec(Words(text), WrapWords(TokenizeTraceable(text), sw, font, size, maxWidth), sw, font, size, maxWidth)
  {
    WrapWordsCorrect(TokenizeTraceable(text), sw, font, size, maxWidth);
  }
}

/** The pure helpers of the web front end (app.py): the file-name slug of a
    verse reference, the `(VERSION)` suffix a user may type after a
    reference, and the comma-separated verse list of the form. */
module App {
  import opened PyStr
  import opened Records

  // ------------------------------------------------------------ the slug

  const EnDash: char := '–'
  const EmDash: char := '—'

  /** `normalize_slug`: lower-case, then ':', en dash, em dash and space,
      in that order, each become '_'. */
  function NormalizeSlug(text: string): string {
    Replace(Replace(Replace(Replace(Lower(text), ':', '_'), EnDash, '_'), EmDash, '_'), ' ', '_')
  }

  /** A character the slug replaces by '_'. */
  predicate IsSeparator(c: char) {
    c == ':' || c == EnDash || c == EmDash || c == ' '
  }

  /** What one character of the reference becomes in the slug. */
  function SlugChar(c: char): char {
    if IsSeparator(LowerChar(c)) then '_' else LowerChar(c)
  }

  /** The slug maps the reference character by character. */
  lemma NormalizeSlugChars(text: string)
    ensures |NormalizeSlug(text)| == |text|
    ensures forall i :: 0 <= i < |text| ==> NormalizeSlug(text)[i] == SlugChar(text[i])
  {
  }

  /** A slug holds no separator and no upper-case letter. */
  lemma NormalizeSlugClean(text: string)
    ensures forall i :: 0 <= i < |NormalizeSlug(text)| ==>
              !IsSeparator(NormalizeSlug(text)[i]) && !IsUpper(NormalizeSlug(text)[i])
  {
    NormalizeSlugChars(text);
  }

  /** Normalizing a slug again changes nothing. */
  lemma NormalizeSlugIdempotent(text: string)
    ensures NormalizeSlug(NormalizeSlug(text)) == NormalizeSlug(text)
  {
    var s := NormalizeSlug(text);
    NormalizeSlugChars(text);
    NormalizeSlugChars(s);
    forall i | 0 <= i < |s|
      ensures NormalizeSlug(s)[i] == s[i]
    {
      assert !IsUpper(s[i]) && !IsSeparator(s[i]);
    }
  }

  // --------------------------------------------------------- the version tag

  /** A character matched by `\w` (ASCII letters, digits and '_'). */
  predicate IsWordChar(c: char) {
    ('a' <= c <= 'z') || ('A' <= c <= 'Z') || ('0' <= c <= '9') || c == '_'
  }

  /** `s` ends with '(' followed by `k` word characters and ')', the shape
      `\((\w{2,6})\)$` matches at the end of the text. */
  predicate TagAt(s: string, k: nat) {
    && 2 <= k <= 6 && k + 2 <= |s|
    && s[|s| - 1] == ')' && s[|s| - 2 - k] == '('
    && forall j :: |s| - 1 - k <= j < |s| - 1 ==> IsWordChar(s[j])
  }

  /** At most one tag length fits, because '(' is not a word character. */
  lemma TagUnique(s: string, j: nat, k: nat)
    ensures TagAt(s, j) && TagAt(s, k) ==> j == k
  {
    if TagAt(s, j) && TagAt(s, k) {
      assert s[|s| - 2 - j] == '(' && s[|s| - 2 - k] == '(';
    }
  }

  /** The search finds the one tag length that fits. */
  lemma {:induction false} FindTagFinds(s: string, k: nat, j: nat)
    requires 2 <= k <= j && TagAt(s, j)
    ensures FindTag(s, k) == Some(j)
    decreases j - k
  {
    TagUnique(s, k, j);
    if k < j {
      FindTagFinds(s, k + 1, j);
    }
  }

  /** The search of `re.search`: the tag length, if some length from `k` on fits. */
  function FindTag(s: string, k: nat): (r: Option<nat>)
    requires 2 <= k <= 7
    ensures r.Some? ==> TagAt(s, r.value) && k <= r.value
    ensures r.None? ==> forall j :: k <= j ==> !TagAt(s, j)
    decreases 7 - k
  {
    if k > 6 then None
    else if TagAt(s, k) then Some(k)
    else FindTag(s, k + 1)
  }

  /** Some tag length fits at the end of `s`: `re.search` finds a match. */
  ghost predicate HasTag(s: string) {
    exists k :: TagAt(s, k)
  }

  /** The version and the reference once the search has run on the stripped
      text `s`: the tag, lower-cased, and what comes before the match in
      `source`, stripped; or the lower-cased fallback and `s` itself. */
  function CutTag(s: string, source: string, fallbackVersion: string): (r: (string, string))
    requires |s| <= |source| && NoEdgeSpace(s)
    ensures forall i :: 0 <= i < |r.0| ==> !IsUpper(r.0[i])
    ensures NoEdgeSpace(r.1)
    ensures !HasTag(s) ==> r == (Lower(fallbackVersion), s)
  {
    match FindTag(s, 2)
    case Some(k) => (Lower(s[|s| - 1 - k..|s| - 1]), Strip(source[..|s| - 2 - k]))
    case None => (Lower(fallbackVersion), s)
  }

  /** `extract_version_from_text`: the version tag, lower-cased, and the
      reference before it, or the lower-cased fallback and the whole
      reference. As written, the match is found in the stripped text but
      the reference is cut from the unstripped one. */
  function ExtractVersionFromText(verseText: string, fallbackVersion: string): (r: (string, string))
    ensures forall i :: 0 <= i < |r.0| ==> !IsUpper(r.0[i])
    ensures NoEdgeSpace(r.1)
    ensures !HasTag(Strip(verseText)) ==> r == (Lower(fallbackVersion), Strip(verseText))
  {
    CutTag(Strip(verseText), verseText, fallbackVersion)
  }

  /** The same extraction with the reference cut from the stripped text,
      the one the match positions refer to. */
  function ExtractVersion(verseText: string, fallbackVersion: string): (r: (string, string))
    ensures forall i :: 0 <= i < |r.0| ==> !IsUpper(r.0[i])
    ensures NoEdgeSpace(r.1)
    ensures !HasTag(Strip(verseText)) ==> r == (Lower(fallbackVersion), Strip(verseText))
  {
    CutTag(Strip(verseText), Strip(verseText), fallbackVersion)
  }

  /** Cutting from any text that starts with the stripped one is cutting
      from the stripped one. */
  lemma CutTagPrefix(s: string, source: string, fallbackVersion: string)
    requires |s| <= |source| && NoEdgeSpace(s) && source[..|s|] == s
    ensures CutTag(s, source, fallbackVersion) == CutTag(s, s, fallbackVersion)
  {
    match FindTag(s, 2)
    case Some(k) =>
      assert source[..|s| - 2 - k] == s[..|s| - 2 - k];
    case None =>
  }

  /** Text written `before (tag)` has its tag of length `|tag|` at the end. */
  lemma TagAtTagged(s: string, before: string, tag: string)
    requires s == before + "(" + tag + ")"
    requires 2 <= |tag| <= 6 && forall i :: 0 <= i < |tag| ==> IsWordChar(tag[i])
    ensures TagAt(s, |tag|)
    ensures s[|s| - 1 - |tag|..|s| - 1] == tag && s[..|s| - 2 - |tag|] == before
  {
    var k := |tag|;
    assert s[|s| - 1 - k..|s| - 1] == tag;
    assert s[..|s| - 2 - k] == before;
    forall j | |s| - 1 - k <= j < |s| - 1
      ensures IsWordChar(s[j])
    {
      assert s[j] == tag[j - (|s| - 1 - k)];
    }
  }

  /** A reference typed as `before (tag)` yields the tag, lower-cased, and
      `before` stripped. */
  lemma ExtractVersionTagged(verseText: string, fallbackVersion: string, before: string, tag: string)
    requires Strip(verseText) == before + "(" + tag + ")"
    requires 2 <= |tag| <= 6 && forall i :: 0 <= i < |tag| ==> IsWordChar(tag[i])
    ensures ExtractVersion(verseText, fallbackVersion) == (Lower(tag), Strip(before))
  {
    var s := Strip(verseText);
    TagAtTagged(s, before, tag);
    FindTagFinds(s, 2, |tag|);
  }

  /** Without leading whitespace, as the callers guarantee, the extraction
      as written agrees with the corrected one. */
  lemma ExtractAgreesWithoutLeadingSpace(verseText: string, fallbackVersion: string)
    requires verseText == [] || !IsSpace(verseText[0])
    ensures ExtractVersionFromText(verseText, fallbackVersion) == ExtractVersion(verseText, fallbackVersion)
  {
    CutFromUnstripped(verseText, fallbackVersion);
  }

  /** Text with no leading whitespace starts with its stripped self, so the
      cut from either is the same. */
  lemma CutFromUnstripped(verseText: string, fallbackVersion: string)
    requires verseText == [] || !IsSpace(verseText[0])
    ensures CutTag(Strip(verseText), verseText, fallbackVersion) == CutTag(Strip(verseText), Strip(verseText), fallbackVersion)
  {
    StripIsPrefix(verseText);
    CutTagPrefix(Strip(verseText), verseText, fallbackVersion);
  }

  /** A single leading space before text with no whitespace at its ends is all `strip` removes. */
  lemma StripOneSpace(t: string)
    requires |t| >= 2 && t[0] == ' ' && !IsSpace(t[1]) && !IsSpace(t[|t| - 1])
    ensures Strip(t) == t[1..]
  {
    assert StripLeft(t) == StripLeft(t[1..]);
    StripNoEdgeSpace(t[1..]);
  }

  /** Cut from the text with its leading space, the reference of "ab(cd)" is "a". */
  lemma CutWithLeadingSpace(fallbackVersion: string)
    ensures CutTag("ab(cd)", " ab(cd)", fallbackVersion).1 == "a"
  {
    assert TagAt("ab(cd)", 2);
    assert " ab(cd)"[..2] == " a";
    StripOneSpace(" a");
  }

  /** Cut from the stripped text, the reference of "ab(cd)" is "ab". */
  lemma CutWithoutLeadingSpace(fallbackVersion: string)
    ensures CutTag("ab(cd)", "ab(cd)", fallbackVersion).1 == "ab"
  {
    assert TagAt("ab(cd)", 2);
    assert "ab(cd)"[..2] == "ab";
    StripNoEdgeSpace("ab");
  }

  /** With one leading space the reference loses its last character:
      " ab(cd)" yields "a" where "ab" was meant. */
  lemma ExtractLeadingSpaceCounterexample()
    ensures ExtractVersionFromText(" ab(cd)", "nlt").1 == "a"
    ensures ExtractVersion(" ab(cd)", "nlt").1 == "ab"
  {
    StripOneSpace(" ab(cd)");
    CutWithLeadingSpace("nlt");
    CutWithoutLeadingSpace("nlt");
  }

  // ---------------------------------------------------------- the verse list

  /** The stripped pieces that are not empty, in order. */
  function Entries(pieces: seq<string>): (es: seq<string>)
    ensures forall e :: e in es ==> e != "" && NoEdgeSpace(e)
    ensures |es| <= |pieces|
  {
    if pieces == [] then []
    else
      var rest := Entries(pieces[1..]);
      if Strip(pieces[0]) != "" then [Strip(pieces[0])] + rest else rest
  }

  /** Stripping keeps a character out that no piece holds. */
  lemma {:induction false} EntriesKeepOut(pieces: seq<string>, c: char)
    requires forall p :: p in pieces ==> c !in p
    ensures forall e :: e in Entries(pieces) ==> c !in e
  {
    if pieces != [] {
      EntriesKeepOut(pieces[1..], c);
      assert pieces[0] in pieces;
      StripKeepsOut(pieces[0], c);
    }
  }

  /** `[v.strip() for v in verse_input.split(",") if v.strip()]`. */
  function SplitVerseList(input: string): (verses: seq<string>)
    ensures forall v :: v in verses ==> v != "" && NoEdgeSpace(v) && ',' !in v
  {
    EntriesKeepOut(Split(input, ','), ',');
    Entries(Split(input, ','))
  }

  lemma {:induction false} EntriesAppend(p: seq<string>, q: seq<string>)
    ensures Entries(p + q) == Entries(p) + Entries(q)
  {
    if p != [] {
      EntriesAppend(p[1..], q);
      assert (p + q)[0] == p[0];
      assert (p + q)[1..] == p[1..] + q;
      var head := if Strip(p[0]) != "" then [Strip(p[0])] else [];
      assert Entries(p) == head + Entries(p[1..]);
      assert Entries(p + q) == head + (Entries(p[1..]) + Entries(q));
    } else {
      assert p + q == q;
    }
  }

  /** The list of `a,b` is the list of `a` followed by the list of `b`. */
  lemma SplitVerseListComma(a: string, b: string)
    ensures SplitVerseList(a + "," + b) == SplitVerseList(a) + SplitVerseList(b)
  {
    SplitAround(a, ',', b);
    EntriesAppend(Split(a, ','), Split(b, ','));
  }

  /** Text without a comma is one entry, stripped, or none when it is blank. */
  lemma SplitVerseListSingle(input: string)
    requires ',' !in input
    ensures SplitVerseList(input) == if Strip(input) == "" then [] else [Strip(input)]
  {
    SplitNoSep(input, ',');
  }

  /** Every entry of the list is extracted the same way by both extractions. */
  lemma SplitEntriesExtract(input: string, fallbackVersion: string)
    ensures forall v :: v in SplitVerseList(input) ==>
              ExtractVersionFromText(v, fallbackVersion) == ExtractVersion(v, fallbackVersion)
  {
    forall v | v in SplitVerseList(input)
      ensures ExtractVersionFromText(v, fallbackVersion) == ExtractVersion(v, fallbackVersion)
    {
      ExtractAgreesWithoutLeadingSpace(v, fallbackVersion);
    }
  }
}

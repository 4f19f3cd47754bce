/** The few Python `str` built-ins the worksheet code relies on: `isspace`,
    `strip`, `split()` (on whitespace), `split(sep)`, `' '.join`, `replace`
    of one character by another, and ASCII `upper`/`lower`/`islower`.
    Whitespace is Python's full `str.isspace` set; case mapping is ASCII only. */
module PyStr {

  /** Python's `str.isspace()` for one code point. */
  predicate IsSpace(c: char) {
    || ('\t' <= c <= '\r')
    || ('\U{1C}' <= c <= ' ')
    || c == '\U{85}' || c == '\U{A0}' || c == '\U{1680}'
    || ('\U{2000}' <= c <= '\U{200A}')
    || c == '\U{2028}' || c == '\U{2029}' || c == '\U{202F}' || c == '\U{205F}' || c == '\U{3000}'
  }

  predicate HasSpace(s: string) {
    exists i :: 0 <= i < |s| && IsSpace(s[i])
  }

  /** `s` has no leading and no trailing whitespace (what `strip` produces). */
  predicate NoEdgeSpace(s: string) {
    s == [] || (!IsSpace(s[0]) && !IsSpace(s[|s| - 1]))
  }

  // ---------------------------------------------------------------- strip

  function StripLeft(s: string): (r: string)
    ensures |r| <= |s| && r == s[|s| - |r|..]
    ensures r == [] || !IsSpace(r[0])
    ensures forall i :: 0 <= i < |s| - |r| ==> IsSpace(s[i])
  {
    if |s| > 0 && IsSpace(s[0]) then StripLeft(s[1..]) else s
  }

  function StripRight(s: string): (r: string)
    ensures |r| <= |s| && r == s[..|r|]
    ensures r == [] || !IsSpace(r[|r| - 1])
    ensures forall i :: |r| <= i < |s| ==> IsSpace(s[i])
  {
    if |s| > 0 && IsSpace(s[|s| - 1]) then StripRight(s[..|s| - 1]) else s
  }

  /** Python's `s.strip()`. */
  function Strip(s: string): (r: string)
    ensures |r| <= |s|
    ensures NoEdgeSpace(r)
  {
    StripRight(StripLeft(s))
  }

  /** `strip()` removes whitespace at the two ends and nothing else: its
      result is a contiguous piece of `s` with only whitespace around it. */
  lemma StripTrims(s: string)
    ensures exists a :: TrimmedAt(s, a, Strip(s))
  {
    var l := StripLeft(s);
    assert AllSpace(s, 0, |s| - |l|);
    assert AllSpace(l, |StripRight(l)|, |l|);
    TrimmedBetween(s, l, StripRight(l));
    assert TrimmedAt(s, |s| - |l|, Strip(s));
  }

  /** A prefix `r` of a suffix `l` of `s`, with only whitespace cut off on
      either side, is trimmed out of `s`. */
  lemma TrimmedBetween(s: string, l: string, r: string)
    requires |l| <= |s| && l == s[|s| - |l|..] && AllSpace(s, 0, |s| - |l|)
    requires |r| <= |l| && r == l[..|r|] && AllSpace(l, |r|, |l|)
    ensures TrimmedAt(s, |s| - |l|, r)
  {
    var a := |s| - |l|;
    AllSpaceShift(s, a, |r|, |l|);
    SliceOfSuffix(s, a, |r|);
  }

  /** Every character of `s` from `lo` up to `hi` is whitespace. */
  predicate AllSpace(s: string, lo: int, hi: int)
    requires 0 <= lo && hi <= |s|
  {
    forall i :: lo <= i < hi ==> IsSpace(s[i])
  }

  lemma AllSpaceShift(s: string, a: nat, lo: nat, hi: nat)
    requires a <= |s| && lo <= hi <= |s| - a
    requires AllSpace(s[a..], lo, hi)
    ensures AllSpace(s, a + lo, a + hi)
  {
    forall i | a + lo <= i < a + hi
      ensures IsSpace(s[i])
    {
      assert s[i] == s[a..][i - a];
    }
  }

  lemma SliceOfSuffix(s: string, a: nat, n: nat)
    requires a + n <= |s|
    ensures s[a..][..n] == s[a..a + n]
  {
  }

  /** `r` is the piece of `s` starting at `a`, and everything of `s` before
      and after that piece is whitespace. */
  predicate TrimmedAt(s: string, a: int, r: string) {
    && 0 <= a && a + |r| <= |s| && r == s[a..a + |r|]
    && AllSpace(s, 0, a)
    && AllSpace(s, a + |r|, |s|)
  }

  lemma StripLeftNoSpace(s: string)
    requires s == [] || !IsSpace(s[0])
    ensures StripLeft(s) == s
  {
  }

  lemma StripRightNoSpace(s: string)
    requires s == [] || !IsSpace(s[|s| - 1])
    ensures StripRight(s) == s
  {
  }

  /** Stripping a string that has no whitespace at its ends changes nothing. */
  lemma StripNoEdgeSpace(s: string)
    requires NoEdgeSpace(s)
    ensures Strip(s) == s
  {
    StripLeftNoSpace(s);
    StripRightNoSpace(s);
  }

  /** Stripping only removes characters. */
  lemma StripKeepsOut(s: string, c: char)
    requires c !in s
    ensures c !in Strip(s)
  {
    var l := StripLeft(s);
    var r := StripRight(l);
    forall i | 0 <= i < |r|
      ensures r[i] != c
    {
      assert r[i] == l[i] == s[|s| - |l| + i];
    }
  }

  /** Without leading whitespace, `strip` only drops a suffix. */
  lemma StripIsPrefix(s: string)
    requires s == [] || !IsSpace(s[0])
    ensures Strip(s) == s[..|Strip(s)|]
  {
    StripLeftNoSpace(s);
  }

  // ------------------------------------------------------------ split()

  /** The leading run of non-whitespace characters of `s`. */
  function TakeWord(s: string): (w: string)
    ensures |w| <= |s| && w == s[..|w|]
    ensures !HasSpace(w)
    ensures |w| < |s| ==> IsSpace(s[|w|])
    ensures s != [] && !IsSpace(s[0]) ==> w != []
  {
    if s == [] || IsSpace(s[0]) then [] else [s[0]] + TakeWord(s[1..])
  }

  /** Python's `s.split()` with no argument: the maximal runs of
      non-whitespace characters, in order. */
  function Words(s: string): (ws: seq<string>)
    ensures forall w :: w in ws ==> w != [] && !HasSpace(w)
    decreases |s|
  {
    var t := StripLeft(s);
    if t == [] then []
    else
      var w := TakeWord(t);
      var rest := Words(t[|w|..]);
      assert forall v :: v in [w] + rest ==> v == w || v in rest;
      [w] + rest
  }

  /** The number of words that start in `s`, scanning one character at a
      time; `inWord` says whether the character before `s` ended inside a word. */
  function CountFrom(s: string, inWord: bool): nat {
    if s == [] then 0
    else if IsSpace(s[0]) then CountFrom(s[1..], false)
    else (if inWord then 0 else 1) + CountFrom(s[1..], true)
  }

  /** `len(s.split())`: the number of whitespace-separated words. */
  function WordCount(s: string): nat {
    CountFrom(s, false)
  }

  /** Leading whitespace starts no word. */
  lemma {:induction false} CountSkipSpace(s: string)
    ensures CountFrom(s, false) == CountFrom(StripLeft(s), false)
  {
    if s != [] && IsSpace(s[0]) {
      CountSkipSpace(s[1..]);
    }
  }

  /** Inside a word, the rest of that word starts no new word. */
  lemma {:induction false} CountInsideWord(u: string)
    ensures CountFrom(u, true) == CountFrom(u[|TakeWord(u)|..], true)
  {
    if u != [] && !IsSpace(u[0]) {
      CountInsideWord(u[1..]);
      assert u[|TakeWord(u)|..] == u[1..][|TakeWord(u[1..])|..];
    }
  }

  /** At a whitespace character or at the end, it does not matter whether
      the scan was inside a word. */
  lemma CountAtBoundary(r: string)
    requires r == [] || IsSpace(r[0])
    ensures CountFrom(r, true) == CountFrom(r, false)
  {
  }

  /** A word at the start counts one, and the scan resumes after it. */
  lemma CountWordStart(t: string)
    requires t != [] && !IsSpace(t[0])
    ensures CountFrom(t, false) == 1 + CountFrom(t[|TakeWord(t)|..], false)
  {
    var r := t[|TakeWord(t)|..];
    CountInsideWord(t[1..]);
    assert t[1..][|TakeWord(t[1..])|..] == r;
    CountAtBoundary(r);
  }

  /** Counting character by character agrees with `len(s.split())`. */
  lemma {:induction false} WordCountWords(s: string)
    ensures WordCount(s) == |Words(s)|
    decreases |s|
  {
    CountSkipSpace(s);
    var t := StripLeft(s);
    if t != [] {
      CountWordStart(t);
      WordCountWords(t[|TakeWord(t)|..]);
    }
  }

  /** The text with every run of whitespace squeezed to one ' ' and the runs
      at both ends dropped, scanning one character at a time: `seen` says
      whether a word was already emitted, `inWord` whether the character
      before `s` ended inside a word. */
  function SqueezeFrom(s: string, seen: bool, inWord: bool): string {
    if s == [] then []
    else if IsSpace(s[0]) then SqueezeFrom(s[1..], seen, false)
    else (if seen && !inWord then " " else "") + [s[0]] + SqueezeFrom(s[1..], true, true)
  }

  function Squeeze(s: string): string {
    SqueezeFrom(s, false, false)
  }

  /** Leading whitespace emits nothing. */
  lemma {:induction false} SqueezeSkipSpace(s: string, seen: bool)
    ensures SqueezeFrom(s, seen, false) == SqueezeFrom(StripLeft(s), seen, false)
  {
    if s != [] && IsSpace(s[0]) {
      SqueezeSkipSpace(s[1..], seen);
    }
  }

  /** Inside a word, the rest of that word is emitted as it is. */
  lemma {:induction false} SqueezeInsideWord(u: string)
    ensures SqueezeFrom(u, true, true) == TakeWord(u) + SqueezeFrom(u[|TakeWord(u)|..], true, true)
  {
    if u != [] && !IsSpace(u[0]) {
      SqueezeInsideWord(u[1..]);
      assert u[|TakeWord(u)|..] == u[1..][|TakeWord(u[1..])|..];
    }
  }

  /** A word at the start is emitted, after one space when a word came before. */
  lemma SqueezeWordStart(t: string, seen: bool)
    requires t != [] && !IsSpace(t[0])
    ensures SqueezeFrom(t, seen, false)
         == (if seen then " " else "") + TakeWord(t) + SqueezeFrom(t[|TakeWord(t)|..], true, false)
  {
    var pre: string := if seen then " " else "";
    var u := t[1..];
    var w := TakeWord(u);
    var r := u[|w|..];
    var tail := SqueezeFrom(r, true, false);
    TakeWordStep(t);
    SqueezeStep(t, seen);
    SqueezeInsideWord(u);
    SqueezeAtBoundary(r);
    AppendAssocStr(pre + [t[0]], w, tail);
    AppendAssocStr(pre, [t[0]], w);
  }

  /** One character of a word at the start of `t`. */
  lemma TakeWordStep(t: string)
    requires t != [] && !IsSpace(t[0])
    ensures TakeWord(t) == [t[0]] + TakeWord(t[1..])
    ensures t[|TakeWord(t)|..] == t[1..][|TakeWord(t[1..])|..]
  {
  }

  lemma SqueezeStep(t: string, seen: bool)
    requires t != [] && !IsSpace(t[0])
    ensures SqueezeFrom(t, seen, false) == (if seen then " " else "") + [t[0]] + SqueezeFrom(t[1..], true, true)
  {
  }

  /** At whitespace or at the end, it does not matter whether the scan was
      inside a word. */
  lemma SqueezeAtBoundary(r: string)
    requires r == [] || IsSpace(r[0])
    ensures SqueezeFrom(r, true, true) == SqueezeFrom(r, true, false)
  {
  }

  lemma AppendAssocStr(a: string, b: string, c: string)
    ensures a + (b + c) == a + b + c
  {
  }

  /** Joining the words of `s` with single spaces is squeezing `s`, so the
      words are exactly the maximal runs of non-whitespace, in order. */
  lemma {:induction false} WordsSqueeze(s: string, seen: bool)
    ensures SqueezeFrom(s, seen, false) == (if seen && Words(s) != [] then " " else "") + Join(Words(s))
    decreases |s|
  {
    SqueezeSkipSpace(s, seen);
    var t := StripLeft(s);
    if t != [] {
      var w := TakeWord(t);
      var rest := t[|w|..];
      var pre: string := if seen then " " else "";
      var ws := Words(rest);
      assert Words(s) == [w] + ws;
      SqueezeWordStart(t, seen);
      WordsSqueeze(rest, true);
      JoinPrepend(w, ws);
      var after: string := if ws == [] then "" else " " + Join(ws);
      assert SqueezeFrom(rest, true, false) == after;
      AppendAssocStr(pre, w, after);
    }
  }

  /** `' '.join(s.split())` squeezes the whitespace of `s`. */
  lemma JoinWords(s: string)
    ensures Join(Words(s)) == Squeeze(s)
  {
    WordsSqueeze(s, false);
  }

  /** Joining words with single spaces loses nothing: splitting the result
      at the spaces gives the words back. */
  lemma {:induction false} SplitJoinedWords(ws: seq<string>)
    requires AreWords(ws) && ws != []
    ensures Split(Join(ws), ' ') == ws
    decreases |ws|
  {
    var last := ws[|ws| - 1];
    assert last in ws;
    SplitNoSep(last, ' ');
    if |ws| > 1 {
      var init := ws[..|ws| - 1];
      assert AreWords(init) by {
        forall v | v in init ensures v != [] && !HasSpace(v) { assert v in ws; }
      }
      SplitJoinedWords(init);
      SplitAround(Join(init), ' ', last);
      assert Join(init) + " " + last == Join(init) + [' '] + last;
      assert init + [last] == ws;
    }
  }

  /** `Words(s)` is the only list of words that joins to the squeezed text. */
  lemma WordsUnique(s: string, ws: seq<string>)
    requires AreWords(ws) && Join(ws) == Squeeze(s)
    ensures ws == Words(s)
  {
    JoinWords(s);
    var vs := Words(s);
    assert AreWords(vs);
    if ws != [] && vs != [] {
      SplitJoinedWords(ws);
      SplitJoinedWords(vs);
    } else if ws != [] {
      JoinNotEmpty(ws);
    } else if vs != [] {
      JoinNotEmpty(vs);
    }
  }

  lemma JoinNotEmpty(ws: seq<string>)
    requires AreWords(ws) && ws != []
    ensures Join(ws) != ""
  {
    assert ws[|ws| - 1] in ws;
  }

  /** Every element is a word as `split()` yields them: non-empty, no whitespace. */
  predicate AreWords(ws: seq<string>) {
    forall w :: w in ws ==> w != [] && !HasSpace(w)
  }

  /** A string holding only whitespace has no words, and conversely. */
  lemma {:induction false} WordsEmpty(s: string)
    ensures Words(s) == [] <==> !(exists i :: 0 <= i < |s| && !IsSpace(s[i]))
  {
    var t := StripLeft(s);
    if t != [] {
      assert !IsSpace(s[|s| - |t|]);
    }
  }

  // ------------------------------------------------------- ' '.join

  /** Python's `' '.join(ws)`. */
  function Join(ws: seq<string>): string
  {
    if |ws| == 0 then ""
    else if |ws| == 1 then ws[0]
    else Join(ws[..|ws| - 1]) + " " + ws[|ws| - 1]
  }

  lemma JoinAppend(ws: seq<string>, w: string)
    ensures Join(ws + [w]) == if ws == [] then w else Join(ws) + " " + w
  {
    assert (ws + [w])[..|ws|] == ws;
  }

  /** Putting a word in front puts it, and a space, in front of the joined text. */
  lemma {:induction false} JoinPrepend(w: string, ws: seq<string>)
    ensures Join([w] + ws) == w + (if ws == [] then "" else " " + Join(ws))
    decreases |ws|
  {
    if |ws| > 1 {
      var init := ws[..|ws| - 1];
      assert ([w] + ws)[..|ws|] == [w] + init;
      JoinPrepend(w, init);
    } else if |ws| == 1 {
      assert ([w] + ws)[..1] == [w];
    }
  }

  /** The elements of `lines` that are not the empty string, in order. */
  function NonEmpty(lines: seq<string>): (r: seq<string>)
    ensures forall l :: l in r ==> l in lines && l != ""
  {
    if lines == [] then []
    else
      var init := NonEmpty(lines[..|lines| - 1]);
      var last := lines[|lines| - 1];
      if last == "" then init else init + [last]
  }

  lemma NonEmptyAppend(lines: seq<string>, l: string)
    ensures NonEmpty(lines + [l]) == if l == "" then NonEmpty(lines) else NonEmpty(lines) + [l]
  {
    assert (lines + [l])[..|lines|] == lines;
  }

  // ------------------------------------------------------- split(sep)

  /** Python's `s.split(sep)` for a one-character separator: always one
      more piece than there are separators, empty pieces kept. */
  function Split(s: string, sep: char): (parts: seq<string>)
    ensures |parts| >= 1
    ensures forall p :: p in parts ==> sep !in p
  {
    if s == [] then [""]
    else
      var rest := Split(s[1..], sep);
      if s[0] == sep then [""] + rest else [[s[0]] + rest[0]] + rest[1..]
  }

  /** Python's `sep.join(parts)` for a one-character separator. */
  function JoinWith(parts: seq<string>, sep: char): string
    requires |parts| >= 1
  {
    if |parts| == 1 then parts[0] else parts[0] + [sep] + JoinWith(parts[1..], sep)
  }

  /** Splitting text around one separator splits each side on its own. */
  lemma {:induction false} SplitAround(a: string, sep: char, b: string)
    ensures Split(a + [sep] + b, sep) == Split(a, sep) + Split(b, sep)
  {
    if a == [] {
      assert a + [sep] + b == [sep] + b;
      assert ([sep] + b)[1..] == b;
    } else {
      var t := a + [sep] + b;
      assert t[0] == a[0];
      assert t[1..] == a[1..] + [sep] + b;
      SplitAround(a[1..], sep, b);
    }
  }

  /** Text without the separator is a single piece. */
  lemma {:induction false} SplitNoSep(s: string, sep: char)
    requires sep !in s
    ensures Split(s, sep) == [s]
  {
    if s != [] {
      SplitNoSep(s[1..], sep);
      assert [s[0]] + s[1..] == s;
    }
  }

  /** Putting a character in front of the first piece puts it in front of the joined text. */
  lemma JoinWithPrepend(c: char, parts: seq<string>, sep: char)
    requires |parts| >= 1
    ensures JoinWith([[c] + parts[0]] + parts[1..], sep) == [c] + JoinWith(parts, sep)
  {
    var q := [[c] + parts[0]] + parts[1..];
    if |parts| > 1 {
      assert q[1..] == parts[1..];
    }
  }

  /** Joining the pieces of a split with the same separator gives back the input. */
  lemma {:induction false} SplitJoin(s: string, sep: char)
    ensures JoinWith(Split(s, sep), sep) == s
  {
    if s != [] {
      SplitJoin(s[1..], sep);
      var rest := Split(s[1..], sep);
      if s[0] == sep {
        assert ([""] + rest)[1..] == rest;
      } else {
        JoinWithPrepend(s[0], rest, sep);
      }
      assert [s[0]] + s[1..] == s;
    }
  }

  // ------------------------------------------------------- case, replace

  predicate IsLower(c: char) { 'a' <= c <= 'z' }
  predicate IsUpper(c: char) { 'A' <= c <= 'Z' }

  /** `c.upper()` for one character (ASCII letters only). */
  function UpperChar(c: char): (u: char)
    ensures !IsLower(u)
    ensures IsLower(c) ==> IsUpper(u)
    ensures !IsLower(c) ==> u == c
  {
    if IsLower(c) then (c as int - 32) as char else c
  }

  /** `c.lower()` for one character (ASCII letters only). */
  function LowerChar(c: char): (l: char)
    ensures !IsUpper(l)
    ensures IsUpper(c) ==> IsLower(l)
    ensures !IsUpper(c) ==> l == c
  {
    if IsUpper(c) then (c as int + 32) as char else c
  }

  function Upper(s: string): (r: string)
    ensures |r| == |s|
    ensures forall i :: 0 <= i < |s| ==> r[i] == UpperChar(s[i])
  {
    if s == [] then [] else [UpperChar(s[0])] + Upper(s[1..])
  }

  function Lower(s: string): (r: string)
    ensures |r| == |s|
    ensures forall i :: 0 <= i < |s| ==> r[i] == LowerChar(s[i])
  {
    if s == [] then [] else [LowerChar(s[0])] + Lower(s[1..])
  }

  /** Python's `s.replace(a, b)` where `a` and `b` are single characters. */
  function Replace(s: string, a: char, b: char): (r: string)
    ensures |r| == |s|
    ensures forall i :: 0 <= i < |s| ==> r[i] == if s[i] == a then b else s[i]
  {
    if s == [] then [] else [if s[0] == a then b else s[0]] + Replace(s[1..], a, b)
  }
}

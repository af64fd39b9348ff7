/** lib/chunk.ts: fixed-size sliding windows, and chapter-aware chunking
    that splits a book on its "Chapter <roman numeral>" heading lines. */
module Chunk {
  import opened Types
  import opened JsText

  // =====================================================================
  // Sliding windows (chunkText, and the sub-splitting of long chapters)

  /** `Math.max(1, size - overlap)`: the window advance, never below 1, so
      that the loop ends even when the overlap is not smaller than the size. */
  function Step(size: int, overlap: int): (step: nat)
    ensures step >= 1
    ensures step >= size - overlap
    ensures step == size - overlap || step == 1
  {
    if size - overlap >= 1 then size - overlap else 1
  }

  /** ceil(len / step): the number of window starts 0, step, 2·step, …
      below len. */
  function WindowCount(len: nat, step: nat): nat
    requires step >= 1
  {
    (len + step - 1) / step
  }

  lemma MulMono(k: nat, m: nat, step: nat)
    requires k <= m
    ensures k * step <= m * step
  {
    assert m * step - k * step == (m - k) * step;
  }

  /** Window k exists exactly when its start k·step is inside the text. */
  lemma WindowCountIff(len: nat, step: nat, k: nat)
    requires step >= 1
    ensures k < WindowCount(len, step) <==> k * step < len
  {
    var c := WindowCount(len, step);
    var r := (len + step - 1) % step;
    assert len + step - 1 == c * step + r;
    if k < c {
      MulMono(k, c - 1, step);
      assert (c - 1) * step == c * step - step;
    } else {
      MulMono(c, k, step);
    }
  }

  /** The window of t that starts at `start`: `t.slice(start, start + size)`,
      reported at offset base + start. */
  function Window(t: string, size: int, start: nat, section: Option<string>, base: int): ChunkWithMeta
  {
    ChunkWithMeta(Slice(t, start, start + size), section, base + start)
  }

  /** All windows of t, in order of their starts. */
  function Windows(t: string, size: int, step: nat, section: Option<string>, base: int): (r: seq<ChunkWithMeta>)
    requires step >= 1
    ensures |r| == WindowCount(|t|, step)
    ensures forall k :: 0 <= k < |r| ==> r[k] == Window(t, size, k * step, section, base)
  {
    seq(WindowCount(|t|, step), k requires 0 <= k < WindowCount(|t|, step) => Window(t, size, k * step, section, base))
  }

  /** lib/chunk.ts:4-20. Chunk k has offset k·step and the text from there
      on, at most `size` characters (JavaScript `slice` semantics); there are
      ceil(|text| / step) chunks, none for the empty text. */
  method ChunkText(text: string, size: int, overlap: int) returns (chunks: seq<ChunkWithMeta>)
    ensures |chunks| == WindowCount(|text|, Step(size, overlap))
    ensures forall k :: 0 <= k < |chunks| ==> chunks[k] == Window(text, size, k * Step(size, overlap), None, 0)
  {
    chunks := [];
    var i := 0;
    var step := if 1 >= size - overlap then 1 else size - overlap;
    while i < |text|
      invariant step == Step(size, overlap)
      invariant i == |chunks| * step
      invariant |chunks| <= WindowCount(|text|, step)
      invariant forall k :: 0 <= k < |chunks| ==> chunks[k] == Window(text, size, k * step, None, 0)
      decreases |text| - i
    {
      WindowCountIff(|text|, step, |chunks|);
      chunks := chunks + [ChunkWithMeta(Slice(text, i, i + size), None, i)];
      i := i + step;
    }
    WindowCountIff(|text|, step, |chunks|);
  }

  /** ChunkText's output is the window list. */
  lemma ChunkTextIsWindows(text: string, size: int, overlap: int, chunks: seq<ChunkWithMeta>)
    requires |chunks| == WindowCount(|text|, Step(size, overlap))
    requires forall k :: 0 <= k < |chunks| ==> chunks[k] == Window(text, size, k * Step(size, overlap), None, 0)
    ensures chunks == Windows(text, size, Step(size, overlap), None, 0)
  {
  }

  /** A window that starts inside the text is the text from its start on,
      `size` characters long or cut at the end of the text. */
  lemma WindowIsSlice(t: string, size: nat, start: nat, section: Option<string>, base: int)
    requires start < |t|
    ensures var w := Window(t, size, start, section, base);
            && w.charOffset == base + start
            && w.text == t[start .. if start + size <= |t| then start + size else |t|]
  {
    SliceInRange(t, start, size);
  }

  function ConcatTexts(cs: seq<ChunkWithMeta>): string
  {
    if cs == [] then [] else ConcatTexts(cs[..|cs| - 1]) + cs[|cs| - 1].text
  }

  /** The first n windows without overlap concatenate to the text up to
      n·size, or to all of it. */
  lemma {:induction false} WindowsConcatPrefix(t: string, size: nat, ws: seq<ChunkWithMeta>, n: nat, cut: nat)
    requires size >= 1 && ws == Windows(t, size, size, None, 0) && n <= |ws|
    requires cut == if n * size <= |t| then n * size else |t|
    ensures ConcatTexts(ws[..n]) == t[..cut]
  {
    if n > 0 {
      var start := (n - 1) * size;
      assert n * size == start + size;
      WindowCountIff(|t|, size, n - 1);
      WindowsConcatPrefix(t, size, ws, n - 1, start);
      var w := ws[n - 1];
      assert w == Window(t, size, start, None, 0);
      WindowIsSlice(t, size, start, None, 0);
      ConcatTextsSnoc(ws, n);
      PrefixThenSlice(t, start, cut);
    }
  }

  lemma ConcatTextsSnoc(cs: seq<ChunkWithMeta>, n: nat)
    requires 0 < n <= |cs|
    ensures ConcatTexts(cs[..n]) == ConcatTexts(cs[..n - 1]) + cs[n - 1].text
  {
    assert cs[..n][..n - 1] == cs[..n - 1];
  }

  lemma PrefixThenSlice<T>(t: seq<T>, i: nat, j: nat)
    requires i <= j <= |t|
    ensures t[..i] + t[i..j] == t[..j]
  {
  }

  /** Without overlap the chunks tile the text: their texts concatenate back
      to it. */
  lemma WindowsTileText(t: string, size: int)
    requires size >= 1
    ensures ConcatTexts(Windows(t, size, Step(size, 0), None, 0)) == t
  {
    var ws := Windows(t, size, size, None, 0);
    var n := |ws|;
    WindowCountIff(|t|, size, n);
    WindowsConcatPrefix(t, size, ws, n, |t|);
    assert ws[..n] == ws;
  }

  /** With 0 ≤ overlap < size every character of the text lies in some
      chunk. */
  lemma WindowsCover(t: string, size: int, overlap: int, i: nat)
    requires 0 <= overlap < size && i < |t|
    ensures var step := Step(size, overlap);
            exists k :: 0 <= k < WindowCount(|t|, step) && k * step <= i < k * step + size
  {
    var step := Step(size, overlap);
    var k := i / step;
    assert k * step <= i < k * step + step;
    WindowCountIff(|t|, step, k);
  }

  /** Size 10 over 25 characters gives chunks at offsets 0, 10 and 20, the
      last one 5 characters long. */
  lemma WindowsExample(t: string)
    requires |t| == 25
    ensures var ws := Windows(t, 10, Step(10, 0), None, 0);
            && |ws| == 3
            && ws[0] == ChunkWithMeta(t[0..10], None, 0)
            && ws[1] == ChunkWithMeta(t[10..20], None, 10)
            && ws[2] == ChunkWithMeta(t[20..25], None, 20)
  {
  }

  // =====================================================================
  // CHAPTER_RE = /^(Chapter\s+[IVXLCDM]+[.\s].*)/im

  /** `^` under the `m` flag: the start of the string or just after a line
      terminator. */
  predicate IsLineStart(s: string, q: nat)
    requires q <= |s|
  {
    q == 0 || IsLineTerminator(s[q - 1])
  }

  const CHAPTER: string := "chapter"

  /** "Chapter" under the `i` flag. Case-insensitive matching without the `u`
      flag folds no non-ASCII character onto an ASCII one, so this is ASCII
      case folding. */
  predicate ChapterWordAt(s: string, q: nat)
    requires q + |CHAPTER| <= |s|
  {
    Lower(s[q..q + |CHAPTER|]) == CHAPTER
  }

  /** `[IVXLCDM]` under the `i` flag. */
  predicate IsRomanChar(c: char)
  {
    var l := LowerChar(c);
    l == 'i' || l == 'v' || l == 'x' || l == 'l' || l == 'c' || l == 'd' || l == 'm'
  }

  /** The three repeated classes of the pattern: `\s`, `[IVXLCDM]` and `.`
      (any character but a line terminator). */
  datatype CharClass = Spaces | Romans | LineChars

  predicate InClass(c: char, cls: CharClass)
  {
    match cls
    case Spaces => IsSpace(c)
    case Romans => IsRomanChar(c)
    case LineChars => !IsLineTerminator(c)
  }

  /** Where a greedy run of the class that starts at i ends. */
  function RunEnd(s: string, i: nat, cls: CharClass): (n: nat)
    requires i <= |s|
    ensures i <= n <= |s|
    ensures n < |s| ==> !InClass(s[n], cls)
    decreases |s| - i
  {
    if i < |s| && InClass(s[i], cls) then RunEnd(s, i + 1, cls) else i
  }

  /** `^Chapter` matches at q. */
  predicate HeadingStart(s: string, q: nat)
    requires q <= |s|
  {
    IsLineStart(s, q) && q + |CHAPTER| <= |s| && ChapterWordAt(s, q)
  }

  /** `\s+[IVXLCDM]+` followed by one character of `[.\s]`, from i on: the
      index of that last character. No part of the pattern can give back a
      character to a later part (a whitespace is no numeral and a numeral is
      neither `.` nor whitespace), so each repetition takes its longest run. */
  function NumeralEnd(s: string, i: nat): (r: Option<nat>)
    requires i <= |s|
    ensures r.Some? ==> i < r.value < |s|
  {
    var a := RunEnd(s, i, Spaces);
    if a == i then None
    else
      var b := RunEnd(s, a, Romans);
      if b == a || b == |s| || !(s[b] == '.' || IsSpace(s[b])) then None
      else Some(b)
  }

  /** Where a match of CHAPTER_RE that starts at q ends, if there is one.
      `[.\s]` also accepts a line break, in which case `.*` runs on to the
      end of the next line. */
  function HeadingEnd(s: string, q: nat): (r: Option<nat>)
    requires q <= |s|
    ensures r.Some? ==> q + |CHAPTER| + 3 <= r.value <= |s|
    ensures r.Some? ==> r.value == |s| || IsLineTerminator(s[r.value])
  {
    if !HeadingStart(s, q) then None
    else match NumeralEnd(s, q + |CHAPTER|)
      case None => None
      case Some(b) => Some(RunEnd(s, b + 1, LineChars))
  }

  /** No match of the pattern starts in [a, b). */
  predicate NoHeadingIn(s: string, a: nat, b: nat)
    requires b <= |s|
  {
    forall j :: a <= j < b ==> HeadingEnd(s, j).None?
  }

  /** `CHAPTER_RE.test(t)`: the pattern matches somewhere in t. */
  predicate ContainsHeading(t: string)
  {
    exists i :: 0 <= i < |t| && HeadingEnd(t, i).Some?
  }

  /** The regular expression engine's scan for `test`: each start in turn. */
  function FindHeadingFrom(t: string, i: nat): (found: bool)
    requires i <= |t|
    ensures found <==> exists j :: i <= j < |t| && HeadingEnd(t, j).Some?
    decreases |t| - i
  {
    if i == |t| then false else HeadingEnd(t, i).Some? || FindHeadingFrom(t, i + 1)
  }

  /** The run of a class inside a slice of s is the run in s, cut at the
      slice's end. */
  lemma {:induction false} RunEndSlice(s: string, a: nat, b: nat, j: nat, cls: CharClass)
    requires a <= b <= |s| && j <= b - a
    ensures var n := RunEnd(s, a + j, cls);
            RunEnd(s[a..b], j, cls) == (if n <= b then n else b) - a
    decreases b - a - j
  {
    var t := s[a..b];
    if j < |t| && InClass(t[j], cls) {
      assert s[a + j] == t[j];
      RunEndSlice(s, a, b, j + 1, cls);
    } else if j < |t| {
      assert s[a + j] == t[j];
    }
  }

  lemma SliceOfSlice(s: string, a: nat, b: nat, i: nat, n: nat)
    requires a + i + n <= b <= |s|
    ensures s[a..b][i..i + n] == s[a + i..a + i + n]
  {
    var u := s[a..b][i..i + n];
    var w := s[a + i..a + i + n];
    forall j | 0 <= j < n ensures u[j] == w[j] {
      assert u[j] == s[a..b][i + j] == s[a + i + j];
    }
  }

  lemma HeadingStartSlice(s: string, a: nat, b: nat, i: nat)
    requires a <= a + i <= b <= |s|
    requires IsLineStart(s[a..b], i) == IsLineStart(s, a + i)
    requires i + |CHAPTER| <= b - a
    ensures HeadingStart(s[a..b], i) == HeadingStart(s, a + i)
  {
    SliceOfSlice(s, a, b, i, |CHAPTER|);
  }

  /** The numeral part read inside a slice of s is read the same in s. */
  lemma NumeralEndFromSlice(s: string, a: nat, b: nat, j: nat)
    requires a <= a + j <= b <= |s|
    ensures NumeralEnd(s[a..b], j).Some? ==> NumeralEnd(s, a + j) == Some(NumeralEnd(s[a..b], j).value + a)
  {
    var t := s[a..b];
    RunEndSlice(s, a, b, j, Spaces);
    var at := RunEnd(t, j, Spaces);
    if at < |t| {
      assert RunEnd(s, a + j, Spaces) == a + at;
      RunEndSlice(s, a, b, at, Romans);
      var bt := RunEnd(t, at, Romans);
      if bt < |t| {
        assert t[bt] == s[a + bt];
      }
    }
  }

  /** The numeral part read in s, when it ends before a slice does, is read
      the same inside the slice. */
  lemma NumeralEndToSlice(s: string, a: nat, b: nat, j: nat)
    requires a <= a + j <= b <= |s|
    ensures NumeralEnd(s, a + j).Some? && NumeralEnd(s, a + j).value < b ==>
              NumeralEnd(s[a..b], j) == Some(NumeralEnd(s, a + j).value - a)
  {
    var t := s[a..b];
    RunEndSlice(s, a, b, j, Spaces);
    var as_ := RunEnd(s, a + j, Spaces);
    if as_ < b {
      assert RunEnd(t, j, Spaces) == as_ - a;
      RunEndSlice(s, a, b, as_ - a, Romans);
      var bs := RunEnd(s, as_, Romans);
      if bs < b {
        assert t[bs - a] == s[bs];
      }
    }
  }

  /** A match inside a slice of s is a match in s at the same place,
      provided the slice does not create a line start that s lacks. */
  lemma HeadingFromSlice(s: string, a: nat, b: nat, i: nat)
    requires a <= a + i <= b <= |s|
    requires IsLineStart(s[a..b], i) == IsLineStart(s, a + i)
    requires HeadingEnd(s[a..b], i).Some?
    ensures HeadingEnd(s, a + i).Some?
  {
    HeadingStartSlice(s, a, b, i);
    NumeralEndFromSlice(s, a, b, i + |CHAPTER|);
  }

  /** A match in s that ends inside a slice is a match of the slice, with
      the same extent, provided the slice does not drop a line start. */
  lemma HeadingToSlice(s: string, a: nat, b: nat, i: nat)
    requires a <= a + i <= b <= |s|
    requires IsLineStart(s[a..b], i) == IsLineStart(s, a + i)
    requires HeadingEnd(s, a + i).Some? && HeadingEnd(s, a + i).value <= b
    ensures HeadingEnd(s[a..b], i) == Some(HeadingEnd(s, a + i).value - a)
  {
    HeadingStartSlice(s, a, b, i);
    var j := i + |CHAPTER|;
    NumeralEndToSlice(s, a, b, j);
    var n := NumeralEnd(s, a + j).value;
    var k := n - a + 1;
    RunEndSlice(s, a, b, k, LineChars);
  }

  /** A match of the pattern in s, taken on its own, passes `test`. */
  lemma HeadingPassesTest(s: string, q: nat, e: nat)
    requires q <= |s| && HeadingEnd(s, q) == Some(e)
    ensures ContainsHeading(s[q..e])
  {
    HeadingToSlice(s, q, e, 0);
  }

  /** A stretch of s in which no match starts and which does not begin in the
      middle of a line, unless it begins with a line break, fails `test`. */
  lemma GapFailsTest(s: string, p: nat, e: nat)
    requires p <= e <= |s| && NoHeadingIn(s, p, e)
    requires p == 0 || p == |s| || IsLineTerminator(s[p])
    ensures !ContainsHeading(s[p..e])
  {
    var t := s[p..e];
    forall i | 0 <= i < |t| ensures HeadingEnd(t, i).None? {
      if i == 0 && p > 0 {
        assert t[0] == s[p] && LowerChar(s[p]) == s[p];
        assert |t| < |CHAPTER| || Lower(t[0..|CHAPTER|])[0] != 'c';
      } else {
        assert i > 0 ==> t[i - 1] == s[p + i - 1];
        if HeadingEnd(t, i).Some? {
          HeadingFromSlice(s, p, e, i);
        }
      }
    }
  }

  // =====================================================================
  // text.split(CHAPTER_RE)

  /** The split algorithm of section 22.2.6.14 of ECMA-262
      (RegExp.prototype[@@split]) for this pattern: try a match at each
      position q in turn; at a match, emit the text since the previous match
      and then the captured heading, and continue after the match; at the
      end emit the rest. The pattern never matches the empty string, so the
      empty-match cases of the algorithm do not arise. */
  function SplitFrom(s: string, p: nat, q: nat): seq<string>
    requires p <= q <= |s|
    decreases |s| - q
  {
    if q == |s| then [s[p..]]
    else match HeadingEnd(s, q)
      case None => SplitFrom(s, p, q + 1)
      case Some(e) => [s[p..q], s[q..e]] + SplitFrom(s, e, e)
  }

  /** `text.split(CHAPTER_RE)`. */
  function SplitParts(text: string): seq<string>
  {
    SplitFrom(text, 0, 0)
  }

  /** The starts of the matches the split separates on when its scan is at
      q: the same position-by-position scan as SplitFrom, which resumes
      after each match, so a match that starts inside an earlier one is
      never among them. */
  ghost function ScanStarts(s: string, q: nat): set<nat>
    requires q <= |s|
    decreases |s| - q
  {
    if q == |s| then {}
    else match HeadingEnd(s, q)
      case None => ScanStarts(s, q + 1)
      case Some(e) => {q} + ScanStarts(s, e)
  }

  /** The shape of the split from offset p on: a body part (text with no
      match in it, starting at the text's start, its end or a line break),
      then alternately a heading (a match of the pattern, in full) and a body
      part; the parts lie end to end. */
  ghost predicate WellSplit(s: string, parts: seq<string>, p: nat, heading: bool)
    decreases |parts|
  {
    && parts != []
    && p + |parts[0]| <= |s|
    && parts[0] == s[p..p + |parts[0]|]
    && (if heading
        then HeadingEnd(s, p) == Some(p + |parts[0]|) && |parts| >= 2
             && WellSplit(s, parts[1..], p + |parts[0]|, false)
        else NoHeadingIn(s, p, p + |parts[0]|)
             && (p == 0 || p == |s| || IsLineTerminator(s[p]))
             && if |parts| == 1 then p + |parts[0]| == |s|
                else WellSplit(s, parts[1..], p + |parts[0]|, true))
  }

  lemma HeadingWellIntro(s: string, q: nat, e: nat, rest: seq<string>, parts: seq<string>)
    requires q <= e <= |s| && HeadingEnd(s, q) == Some(e)
    requires WellSplit(s, rest, e, false) && parts == [s[q..e]] + rest
    ensures WellSplit(s, parts, q, true)
  {
    assert parts[0] == s[q..e];
    assert parts[1..] == rest;
  }

  lemma BodyWellIntro(s: string, p: nat, q: nat, tail: seq<string>, parts: seq<string>)
    requires p <= q <= |s| && NoHeadingIn(s, p, q)
    requires p == 0 || p == |s| || IsLineTerminator(s[p])
    requires WellSplit(s, tail, q, true) && parts == [s[p..q]] + tail
    ensures WellSplit(s, parts, p, false)
  {
    assert parts[0] == s[p..q];
    assert parts[1..] == tail;
  }

  lemma {:induction false} SplitFromWell(s: string, p: nat, q: nat)
    requires p <= q <= |s| && NoHeadingIn(s, p, q)
    requires p == 0 || p == |s| || IsLineTerminator(s[p])
    ensures WellSplit(s, SplitFrom(s, p, q), p, false)
    decreases |s| - q
  {
    if q == |s| {
      LastPartWell(s, p);
    } else {
      match HeadingEnd(s, q)
      case None =>
        var next := q + 1;
        NoHeadingExtend(s, p, q, next);
        SplitFromWell(s, p, next);
        SplitFromSkip(s, p, q, next);
      case Some(e) =>
        SplitFromWell(s, e, e);
        var rest := SplitFrom(s, e, e);
        var tail := [s[q..e]] + rest;
        HeadingWellIntro(s, q, e, rest, tail);
        var parts := [s[p..q]] + tail;
        BodyWellIntro(s, p, q, tail, parts);
        SplitFromMatch(s, p, q, e, rest, parts);
    }
  }

  lemma NoHeadingExtend(s: string, p: nat, q: nat, next: nat)
    requires p <= q < |s| && next == q + 1 && NoHeadingIn(s, p, q) && HeadingEnd(s, q).None?
    ensures NoHeadingIn(s, p, next)
  {
  }

  lemma SplitFromSkip(s: string, p: nat, q: nat, next: nat)
    requires p <= q < |s| && next == q + 1 && HeadingEnd(s, q).None?
    ensures SplitFrom(s, p, q) == SplitFrom(s, p, next)
  {
  }

  lemma SplitFromMatch(s: string, p: nat, q: nat, e: nat, rest: seq<string>, parts: seq<string>)
    requires p <= q < |s| && HeadingEnd(s, q) == Some(e) && rest == SplitFrom(s, e, e)
    requires parts == [s[p..q]] + ([s[q..e]] + rest)
    ensures SplitFrom(s, p, q) == parts
  {
    assert [s[p..q], s[q..e]] + rest == parts;
  }

  /** The text after the last match is a well-formed final body part. */
  lemma LastPartWell(s: string, p: nat)
    requires p <= |s| && NoHeadingIn(s, p, |s|)
    requires p == 0 || p == |s| || IsLineTerminator(s[p])
    ensures WellSplit(s, [s[p..]], p, false)
  {
    var part := s[p..];
    assert p + |part| == |s|;
    assert part == s[p..p + |part|];
  }

  /** The split parts of the text alternate between body text and heading
      matches, lie end to end and so concatenate back to the text. */
  lemma SplitPartsWell(text: string)
    ensures WellSplit(text, SplitParts(text), 0, false)
  {
    SplitFromWell(text, 0, 0);
  }

  // =====================================================================
  // chunkByChapter

  /** A section body found by the first loop of chunkByChapter. */
  datatype Chapter = Chapter(section: string, text: string, offset: int)

  /** The first loop of chunkByChapter (lib/chunk.ts:35-47) from part 0 of
      `parts` on, with the current section label and character offset: a
      part that passes `test` becomes the label; any other part that is not
      blank becomes a chapter, at the position `indexOf` finds for it. */
  function ChaptersFrom(text: string, parts: seq<string>, section: string, charOffset: int): seq<Chapter>
    decreases |parts|
  {
    if parts == [] then []
    else
      PartChapter(text, parts[0], section, charOffset)
        + ChaptersFrom(text, parts[1..], NextSection(parts[0], section), charOffset + |parts[0]|)
  }

  /** The label after a part: its trimmed text when it passes `test`. */
  function NextSection(part: string, section: string): string
  {
    if ContainsHeading(part) then Trim(part) else section
  }

  /** The chapter a part contributes: none for a heading or a blank part. */
  function PartChapter(text: string, part: string, section: string, charOffset: int): seq<Chapter>
  {
    if !ContainsHeading(part) && Trim(part) != "" then [Chapter(section, part, IndexOf(text, part, charOffset))]
    else []
  }

  lemma ChaptersFromCons(text: string, parts: seq<string>, tail: seq<string>, section: string, charOffset: int,
                          next: string, e: int)
    requires parts != [] && tail == parts[1..]
    requires next == NextSection(parts[0], section) && e == charOffset + |parts[0]|
    ensures ChaptersFrom(text, parts, section, charOffset)
         == PartChapter(text, parts[0], section, charOffset) + ChaptersFrom(text, tail, next, e)
  {
  }

  /** The chapters of a text. */
  function Chapters(text: string): seq<Chapter>
  {
    ChaptersFrom(text, SplitParts(text), "Preamble", 0)
  }

  /** The chunks of one chapter: the whole body when it fits, else windows
      of maxChunkSize characters advancing by max(1, maxChunkSize - overlap),
      all labelled with the chapter's section. */
  function ChapterPieces(ch: Chapter, maxChunkSize: int, overlap: int): seq<ChunkWithMeta>
  {
    if |ch.text| <= maxChunkSize then [ChunkWithMeta(ch.text, Some(ch.section), ch.offset)]
    else Windows(ch.text, maxChunkSize, Step(maxChunkSize, overlap), Some(ch.section), ch.offset)
  }

  /** The second loop of chunkByChapter (lib/chunk.ts:50-69). */
  function ChunksOf(chs: seq<Chapter>, maxChunkSize: int, overlap: int): seq<ChunkWithMeta>
  {
    if chs == [] then [] else ChapterPieces(chs[0], maxChunkSize, overlap) + ChunksOf(chs[1..], maxChunkSize, overlap)
  }

  /** lib/chunk.ts:24-72 */
  method ChunkByChapter(text: string, maxChunkSize: int, overlap: int) returns (result: seq<ChunkWithMeta>)
    ensures result == ChunksOf(Chapters(text), maxChunkSize, overlap)
  {
    var chapters := CollectChapters(text);
    result := [];
    for c := 0 to |chapters|
      invariant result + ChunksOf(chapters[c..], maxChunkSize, overlap) == ChunksOf(chapters, maxChunkSize, overlap)
    {
      assert chapters[c..][1..] == chapters[c + 1..];
      assert ChunksOf(chapters[c..], maxChunkSize, overlap)
          == ChapterPieces(chapters[c], maxChunkSize, overlap) + ChunksOf(chapters[c + 1..], maxChunkSize, overlap);
      var pieces := SplitChapter(chapters[c], maxChunkSize, overlap);
      SplitChapterPieces(chapters[c], maxChunkSize, overlap, pieces);
      AppendAssoc(result, pieces, ChunksOf(chapters[c + 1..], maxChunkSize, overlap));
      result := result + pieces;
    }
  }

  /** The first loop of chunkByChapter (lib/chunk.ts:29-47). */
  method CollectChapters(text: string) returns (chapters: seq<Chapter>)
    ensures chapters == Chapters(text)
  {
    var parts := SplitParts(text);
    chapters := [];
    var currentSection := "Preamble";
    var charOffset := 0;

    ghost var all := ChaptersFrom(text, parts, "Preamble", 0);
    for i := 0 to |parts|
      invariant chapters + ChaptersFrom(text, parts[i..], currentSection, charOffset) == all
    {
      var part := parts[i];
      ghost var from, tail := parts[i..], parts[i + 1..];
      assert from[1..] == tail;
      var found, next := PartStep(text, part, currentSection, charOffset);
      var end := charOffset + |part|;
      ghost var todo, rest := ChaptersFrom(text, from, currentSection, charOffset), ChaptersFrom(text, tail, next, end);
      ChaptersFromCons(text, from, tail, currentSection, charOffset, next, end);
      Reassociate(chapters, found, rest, todo, all);
      chapters := chapters + found;
      currentSection := next;
      charOffset := end;
    }
  }

  /** One turn of the first loop of chunkByChapter (lib/chunk.ts:36-46): the
      chapter the part adds, if any, and the label after it. */
  method PartStep(text: string, part: string, section: string, charOffset: int)
    returns (found: seq<Chapter>, next: string)
    ensures found == PartChapter(text, part, section, charOffset)
    ensures next == NextSection(part, section)
  {
    found, next := [], section;
    if FindHeadingFrom(part, 0) {
      next := Trim(part);
    } else if Trim(part) != "" {
      found := [Chapter(section, part, IndexOf(text, part, charOffset))];
    }
  }

  /** Moving the head of the remaining work onto what is done. */
  lemma Reassociate<T>(done: seq<T>, head: seq<T>, rest: seq<T>, todo: seq<T>, all: seq<T>)
    requires todo == head + rest && done + todo == all
    ensures (done + head) + rest == all
  {
  }

  lemma AppendAssoc<T>(a: seq<T>, b: seq<T>, c: seq<T>)
    ensures (a + b) + c == a + (b + c)
  {
  }

  /** The body of the second loop of chunkByChapter for one chapter
      (lib/chunk.ts:51-68). */
  method SplitChapter(ch: Chapter, maxChunkSize: int, overlap: int) returns (pieces: seq<ChunkWithMeta>)
    ensures |ch.text| <= maxChunkSize ==> pieces == [ChunkWithMeta(ch.text, Some(ch.section), ch.offset)]
    ensures |ch.text| > maxChunkSize ==> |pieces| == WindowCount(|ch.text|, Step(maxChunkSize, overlap))
    ensures |ch.text| > maxChunkSize ==>
              forall k :: 0 <= k < |pieces| ==>
                pieces[k] == Window(ch.text, maxChunkSize, k * Step(maxChunkSize, overlap), Some(ch.section), ch.offset)
  {
    var text, section, offset := ch.text, Some(ch.section), ch.offset;
    if |text| <= maxChunkSize {
      return [ChunkWithMeta(text, section, offset)];
    }
    var step := if 1 >= maxChunkSize - overlap then 1 else maxChunkSize - overlap;
    var j := 0;
    pieces := [];
    while j < |text|
      invariant step == Step(maxChunkSize, overlap)
      invariant j == |pieces| * step
      invariant |pieces| <= WindowCount(|text|, step)
      invariant forall k :: 0 <= k < |pieces| ==> pieces[k] == Window(text, maxChunkSize, k * step, section, offset)
      decreases |text| - j
    {
      var piece := ChunkWithMeta(Slice(text, j, j + maxChunkSize), section, offset + j);
      WindowStep(text, maxChunkSize, step, section, offset, pieces, j, piece);
      pieces := pieces + [piece];
      j := j + step;
    }
    WindowCountIff(|text|, step, |pieces|);
  }

  /** One turn of the window loop adds the next window. */
  lemma WindowStep(text: string, size: int, step: nat, section: Option<string>, offset: int,
                   pieces: seq<ChunkWithMeta>, j: int, piece: ChunkWithMeta)
    requires step >= 1 && j == |pieces| * step && j < |text|
    requires forall k :: 0 <= k < |pieces| ==> pieces[k] == Window(text, size, k * step, section, offset)
    requires piece == ChunkWithMeta(Slice(text, j, j + size), section, offset + j)
    ensures j + step == (|pieces| + 1) * step
    ensures |pieces| + 1 <= WindowCount(|text|, step)
    ensures forall k :: 0 <= k < |pieces| + 1 ==> (pieces + [piece])[k] == Window(text, size, k * step, section, offset)
  {
    WindowCountIff(|text|, step, |pieces|);
    assert piece == Window(text, size, |pieces| * step, section, offset);
  }

  /** What SplitChapter computes is the chapter's pieces. */
  lemma SplitChapterPieces(ch: Chapter, maxChunkSize: int, overlap: int, pieces: seq<ChunkWithMeta>)
    requires |ch.text| <= maxChunkSize ==> pieces == [ChunkWithMeta(ch.text, Some(ch.section), ch.offset)]
    requires |ch.text| > maxChunkSize ==> |pieces| == WindowCount(|ch.text|, Step(maxChunkSize, overlap))
    requires |ch.text| > maxChunkSize ==>
               forall k :: 0 <= k < |pieces| ==>
                 pieces[k] == Window(ch.text, maxChunkSize, k * Step(maxChunkSize, overlap), Some(ch.section), ch.offset)
    ensures pieces == ChapterPieces(ch, maxChunkSize, overlap)
  {
  }


  // ---------------------------------------------------------------------
  // What the chunks are

  /** The section label that holds at offset `off` of s: "Preamble" when no
      heading starts before it, otherwise the label of a heading the split
      separates on that ends at or before `off`, with no heading starting
      between its end and `off`. At most one label holds at an offset
      (LabelAtUnique). */
  ghost predicate LabelAt(s: string, name: string, off: nat)
    requires off <= |s|
  {
    || (name == "Preamble" && NoHeadingIn(s, 0, off))
    || exists q: nat :: LabelledBy(s, name, q, off)
  }

  /** The split separates on a heading that starts at q and ends at or
      before `off`, no heading starts between its end and `off`, and its
      trimmed text is `name`. */
  ghost predicate LabelledBy(s: string, name: string, q: nat, off: nat)
    requires off <= |s|
  {
    && q < off && q in ScanStarts(s, 0) && HeadingEnd(s, q).Some? && HeadingEnd(s, q).value <= off
    && NoHeadingIn(s, HeadingEnd(s, q).value, off)
    && name == Trim(s[q..HeadingEnd(s, q).value])
  }

  /** A chapter is a non-blank stretch of the text, found at its own offset,
      in which no heading starts, labelled with the section that holds
      there. */
  ghost predicate ChapterOK(s: string, ch: Chapter)
  {
    && 0 <= ch.offset && ch.offset + |ch.text| <= |s|
    && ch.text == s[ch.offset..ch.offset + |ch.text|]
    && Trim(ch.text) != ""
    && NoHeadingIn(s, ch.offset, ch.offset + |ch.text|)
    && LabelAt(s, ch.section, ch.offset)
  }

  /** A chunk is the text at its own offset, contains no heading start, and
      carries the section name that holds at its offset. */
  ghost predicate ChunkOK(s: string, c: ChunkWithMeta)
  {
    && c.section.Some?
    && 0 <= c.charOffset && c.charOffset + |c.text| <= |s|
    && c.text == s[c.charOffset..c.charOffset + |c.text|]
    && NoHeadingIn(s, c.charOffset, c.charOffset + |c.text|)
    && LabelAt(s, c.section.value, c.charOffset)
  }

  lemma NoHeadingJoin(s: string, a: nat, b: nat, c: nat)
    requires a <= b <= c <= |s| && NoHeadingIn(s, a, b) && NoHeadingIn(s, b, c)
    ensures NoHeadingIn(s, a, c)
  {
  }

  /** Every start the scan takes from q on lies at or after q and begins a
      match. */
  lemma {:induction false} ScanStartsFrom(s: string, q: nat, x: nat)
    requires q <= |s| && x in ScanStarts(s, q)
    ensures q <= x < |s| && HeadingEnd(s, x).Some?
    decreases |s| - q
  {
    if q < |s| {
      match HeadingEnd(s, q)
      case None => ScanStartsFrom(s, q + 1, x);
      case Some(e) => if x != q { ScanStartsFrom(s, e, x); }
    }
  }

  /** The matches the scan takes do not overlap: each ends at or before
      the start of any later one. */
  lemma {:induction false} ScanStartsApart(s: string, q: nat, x: nat, y: nat)
    requires q <= |s| && x in ScanStarts(s, q) && y in ScanStarts(s, q) && x < y
    ensures x < |s| && HeadingEnd(s, x).Some? && HeadingEnd(s, x).value <= y
    decreases |s| - q
  {
    if q < |s| {
      match HeadingEnd(s, q)
      case None => ScanStartsApart(s, q + 1, x, y);
      case Some(e) =>
        if x == q {
          ScanStartsFrom(s, e, y);
        } else {
          ScanStartsFrom(s, e, x);
          ScanStartsApart(s, e, x, y);
        }
    }
  }

  /** Scanning past positions where no match starts takes no start. */
  lemma {:induction false} ScanSkip(s: string, a: nat, b: nat)
    requires a <= b <= |s| && NoHeadingIn(s, a, b)
    ensures ScanStarts(s, a) == ScanStarts(s, b)
    decreases b - a
  {
    if a < b {
      ScanSkip(s, a + 1, b);
    }
  }

  /** At most one section label holds at an offset. */
  lemma LabelAtUnique(s: string, name: string, name': string, off: nat)
    requires off <= |s| && LabelAt(s, name, off) && LabelAt(s, name', off)
    ensures name == name'
  {
    if !NoHeadingIn(s, 0, off) {
      var q: nat :| LabelledBy(s, name, q, off);
      var q': nat :| LabelledBy(s, name', q', off);
      LabelledByUnique(s, name, q, name', q', off);
    }
  }

  lemma LabelledByUnique(s: string, name: string, q: nat, name': string, q': nat, off: nat)
    requires off <= |s| && LabelledBy(s, name, q, off) && LabelledBy(s, name', q', off)
    ensures q == q' && name == name'
  {
    if q < q' {
      ScanStartsApart(s, 0, q, q');
      assert false;
    } else if q' < q {
      ScanStartsApart(s, 0, q', q);
      assert false;
    }
  }

  /** The name holding at an offset still holds further on if no heading
      starts in between. */
  lemma LabelExtends(s: string, name: string, off: nat, off': nat)
    requires off <= off' <= |s| && LabelAt(s, name, off) && NoHeadingIn(s, off, off')
    ensures LabelAt(s, name, off')
  {
    if name == "Preamble" && NoHeadingIn(s, 0, off) {
      NoHeadingJoin(s, 0, off, off');
    } else {
      var q: nat :| LabelledBy(s, name, q, off);
      NoHeadingJoin(s, HeadingEnd(s, q).value, off, off');
      assert LabelledBy(s, name, q, off');
    }
  }

  /** A heading part passes `test`, contributes no chapter, and its trimmed
      text is the label that holds where it ends. */
  lemma HeadingPart(s: string, parts: seq<string>, tail: seq<string>, off: nat, e: nat, section: string, name: string)
    requires WellSplit(s, parts, off, true) && e == off + |parts[0]|
    requires tail == parts[1..] && name == Trim(parts[0])
    requires off in ScanStarts(s, 0)
    ensures && e <= |s|
            && PartChapter(s, parts[0], section, off) == []
            && NextSection(parts[0], section) == name
            && LabelAt(s, name, e)
            && WellSplit(s, tail, e, false)
  {
    WellSplitHeading(s, parts, tail, off, e);
    HeadingPassesTest(s, off, e);
    LabelledAtEnd(s, off, e, name);
  }

  lemma WellSplitHeading(s: string, parts: seq<string>, tail: seq<string>, off: nat, e: nat)
    requires WellSplit(s, parts, off, true) && e == off + |parts[0]| && tail == parts[1..]
    ensures e <= |s| && parts[0] == s[off..e] && HeadingEnd(s, off) == Some(e)
    ensures WellSplit(s, tail, e, false)
  {
  }

  /** The trimmed text of a heading is the label where the heading ends. */
  lemma LabelledAtEnd(s: string, q: nat, e: nat, name: string)
    requires q <= |s| && HeadingEnd(s, q) == Some(e) && name == Trim(s[q..e])
    requires q in ScanStarts(s, 0)
    ensures LabelAt(s, name, e)
  {
    assert NoHeadingIn(s, e, e);
    assert LabelledBy(s, name, q, e);
  }

  /** A body part fails `test` and, unless blank, is the chapter at its own
      offset under the current label. */
  lemma BodyPart(s: string, parts: seq<string>, tail: seq<string>, off: nat, e: nat, section: string)
    requires WellSplit(s, parts, off, false) && e == off + |parts[0]| && tail == parts[1..]
    requires LabelAt(s, section, off)
    ensures var r := PartChapter(s, parts[0], section, off);
            && e <= |s|
            && NextSection(parts[0], section) == section
            && |r| <= 1
            && (|r| == 1 ==> ChapterOK(s, r[0]) && r[0].offset == off && r[0].offset + |r[0].text| == e)
            && (|parts| > 1 ==> WellSplit(s, tail, e, true))
  {
    WellSplitBody(s, parts, tail, off, e);
    var part := parts[0];
    BodyPartChapter(s, part, off, e, section, PartChapter(s, part, section, off));
  }

  lemma BodyPartChapter(s: string, part: string, off: nat, e: nat, section: string, r: seq<Chapter>)
    requires off <= e <= |s| && part == s[off..e] && NoHeadingIn(s, off, e)
    requires off == 0 || off == |s| || IsLineTerminator(s[off])
    requires LabelAt(s, section, off) && r == PartChapter(s, part, section, off)
    ensures && NextSection(part, section) == section
            && |r| <= 1
            && (|r| == 1 ==> ChapterOK(s, r[0]) && r[0].offset == off && r[0].offset + |r[0].text| == e)
  {
    GapFailsTest(s, off, e);
    if Trim(part) != "" {
      IndexOfAt(s, part, off);
      BodyChapterOK(s, part, off, e, section);
    }
  }

  lemma WellSplitBody(s: string, parts: seq<string>, tail: seq<string>, off: nat, e: nat)
    requires WellSplit(s, parts, off, false) && e == off + |parts[0]| && tail == parts[1..]
    ensures e <= |s| && parts[0] == s[off..e] && NoHeadingIn(s, off, e)
    ensures off == 0 || off == |s| || IsLineTerminator(s[off])
    ensures |parts| > 1 ==> WellSplit(s, tail, e, true)
  {
  }

  lemma BodyChapterOK(s: string, part: string, off: nat, e: nat, section: string)
    requires off <= e <= |s| && part == s[off..e] && NoHeadingIn(s, off, e)
    requires Trim(part) != "" && LabelAt(s, section, off)
    ensures ChapterOK(s, Chapter(section, part, off))
  {
  }

  /** The chapters found from a part on, given the parts lie end to end in
      the text starting at `off`. */
  ghost predicate ChaptersWithin(s: string, r: seq<Chapter>, off: int)
  {
    AllChaptersOK(s, r, off) && NonOverlapping(r)
  }

  ghost predicate AllChaptersOK(s: string, r: seq<Chapter>, off: int)
  {
    forall ch :: ch in r ==> ChapterOK(s, ch) && ch.offset >= off
  }

  ghost predicate NonOverlapping(r: seq<Chapter>)
  {
    forall i, j :: 0 <= i < j < |r| ==> r[i].offset + |r[i].text| <= r[j].offset
  }

  lemma AllChaptersOKCons(s: string, c: seq<Chapter>, rest: seq<Chapter>, off: int, e: int)
    requires AllChaptersOK(s, c, off)
    requires off <= e && AllChaptersOK(s, rest, e)
    ensures AllChaptersOK(s, c + rest, off)
  {
  }

  lemma NonOverlappingCons(c: seq<Chapter>, rest: seq<Chapter>, e: int)
    requires |c| <= 1 && (|c| == 1 ==> c[0].offset + |c[0].text| <= e)
    requires NonOverlapping(rest) && forall k :: 0 <= k < |rest| ==> rest[k].offset >= e
    ensures NonOverlapping(c + rest)
  {
    var r := c + rest;
    forall i, j | 0 <= i < j < |r| ensures r[i].offset + |r[i].text| <= r[j].offset {
      assert r[j] == rest[j - |c|];
      if i >= |c| { assert r[i] == rest[i - |c|]; }
    }
  }

  lemma ChaptersWithinCons(s: string, r: seq<Chapter>, c: seq<Chapter>, rest: seq<Chapter>, off: int, e: int)
    requires r == c + rest
    requires |c| <= 1 && (|c| == 1 ==> ChapterOK(s, c[0]) && c[0].offset >= off && c[0].offset + |c[0].text| <= e)
    requires off <= e && ChaptersWithin(s, rest, e)
    ensures ChaptersWithin(s, r, off)
  {
    AllChaptersOKCons(s, c, rest, off, e);
    NonOverlappingCons(c, rest, e);
  }

  /** From a heading part on. */
  lemma {:induction false} HeadingPhaseSound(s: string, parts: seq<string>, section: string, off: nat)
    requires WellSplit(s, parts, off, true)
    requires ScanStarts(s, off) <= ScanStarts(s, 0)
    ensures ChaptersWithin(s, ChaptersFrom(s, parts, section, off), off)
    decreases |parts|, 0
  {
    var e := off + |parts[0]|;
    var next := Trim(parts[0]);
    var tail := parts[1..];
    WellSplitHeading(s, parts, tail, off, e);
    assert ScanStarts(s, off) == {off} + ScanStarts(s, e);
    HeadingPart(s, parts, tail, off, e, section, next);
    var rest := ChaptersFrom(s, tail, next, e);
    BodyPhaseSound(s, tail, next, e);
    var all := ChaptersFrom(s, parts, section, off);
    ChaptersFromCons(s, parts, tail, section, off, next, e);
    ChaptersWithinCons(s, all, [], rest, off, e);
  }

  /** From a body part on, under the label that holds where it starts. */
  lemma {:induction false} BodyPhaseSound(s: string, parts: seq<string>, section: string, off: nat)
    requires WellSplit(s, parts, off, false)
    requires LabelAt(s, section, off)
    requires ScanStarts(s, off) <= ScanStarts(s, 0)
    ensures ChaptersWithin(s, ChaptersFrom(s, parts, section, off), off)
    decreases |parts|, 1
  {
    var e := off + |parts[0]|;
    var tail := parts[1..];
    BodyPart(s, parts, tail, off, e, section);
    WellSplitBody(s, parts, tail, off, e);
    ScanSkip(s, off, e);
    var c := PartChapter(s, parts[0], section, off);
    var rest := ChaptersFrom(s, tail, section, e);
    if |parts| > 1 {
      HeadingPhaseSound(s, tail, section, e);
    } else {
      assert rest == [];
    }
    var all := ChaptersFrom(s, parts, section, off);
    ChaptersFromCons(s, parts, tail, section, off, section, e);
    ChaptersWithinCons(s, all, c, rest, off, e);
  }

  /** Every chapter of a text is a non-blank stretch of it at its own
      offset, free of heading starts and labelled with the section that holds
      there; chapters come in text order and do not overlap. */
  lemma ChaptersSound(text: string)
    ensures ChaptersWithin(text, Chapters(text), 0)
  {
    SplitPartsWell(text);
    BodyPhaseSound(text, SplitParts(text), "Preamble", 0);
  }

  /** `slice` from an index inside the sequence gives the elements from that
      index on. */
  lemma SliceFromStart(t: string, start: nat, end: int)
    requires start <= |t|
    ensures var r := Slice(t, start, end);
            start + |r| <= |t| && r == t[start..start + |r|]
  {
  }

  /** Every chunk of a list is sound. */
  ghost predicate AllChunksOK(s: string, r: seq<ChunkWithMeta>)
  {
    forall c :: c in r ==> ChunkOK(s, c)
  }

  predicate OffsetsAtLeast(r: seq<ChunkWithMeta>, lo: int)
  {
    forall c :: c in r ==> c.charOffset >= lo
  }

  predicate OffsetsBelow(r: seq<ChunkWithMeta>, hi: int)
  {
    forall c :: c in r ==> c.charOffset < hi
  }

  /** Chunk offsets strictly increase along the list. */
  predicate Increasing(r: seq<ChunkWithMeta>)
  {
    forall i, j :: 0 <= i < j < |r| ==> r[i].charOffset < r[j].charOffset
  }

  lemma IncreasingAppend(a: seq<ChunkWithMeta>, b: seq<ChunkWithMeta>, e: int)
    requires Increasing(a) && Increasing(b) && OffsetsBelow(a, e) && OffsetsAtLeast(b, e)
    ensures Increasing(a + b)
  {
    var r := a + b;
    forall i, j | 0 <= i < j < |r| ensures r[i].charOffset < r[j].charOffset {
      if j < |a| {
        assert r[i] == a[i] && r[j] == a[j];
      } else if i < |a| {
        assert r[i] == a[i] && r[j] == b[j - |a|];
        assert a[i] in a && b[j - |a|] in b;
      } else {
        assert r[i] == b[i - |a|] && r[j] == b[j - |a|];
      }
    }
  }

  /** A window of a stretch of s that starts inside it is a stretch of s. */
  lemma WindowText(s: string, t: string, off: nat, size: int, start: nat)
    requires off + |t| <= |s| && t == s[off..off + |t|] && start < |t|
    ensures var w := Slice(t, start, start + size);
            off + start + |w| <= off + |t| && w == s[off + start..off + start + |w|]
  {
    SliceFromStart(t, start, start + size);
    SliceOfSlice(s, off, off + |t|, start, |Slice(t, start, start + size)|);
  }

  lemma NoHeadingSub(s: string, a: nat, b: nat, c: nat, d: nat)
    requires a <= c <= d <= b <= |s| && NoHeadingIn(s, a, b)
    ensures NoHeadingIn(s, c, d)
  {
  }

  lemma ChunkOKIntro(s: string, text: string, section: string, off: nat)
    requires off + |text| <= |s| && text == s[off..off + |text|]
    requires NoHeadingIn(s, off, off + |text|)
    requires LabelAt(s, section, off)
    ensures ChunkOK(s, ChunkWithMeta(text, Some(section), off))
  {
  }

  /** A window that starts inside a stretch of s free of heading starts, under
      the label holding where the stretch starts, is a sound chunk. */
  lemma WindowSound(s: string, off: nat, len: nat, section: string, size: int, start: nat)
    requires off + len <= |s| && start < len
    requires NoHeadingIn(s, off, off + len) && LabelAt(s, section, off)
    ensures var w := Window(s[off..off + len], size, start, Some(section), off);
            ChunkOK(s, w) && w.charOffset == off + start
  {
    var t := s[off..off + len];
    var text := Slice(t, start, start + size);
    var p := off + start;
    WindowText(s, t, off, size, start);
    NoHeadingSub(s, off, off + len, p, p + |text|);
    NoHeadingSub(s, off, off + len, off, p);
    LabelExtends(s, section, off, p);
    ChunkOKIntro(s, text, section, p);
    assert Window(t, size, start, Some(section), off) == ChunkWithMeta(text, Some(section), p);
  }

  /** The windows of a stretch of s with no heading in it are sound chunks
      inside it. */
  lemma WindowsSound(s: string, off: nat, len: nat, section: string, size: int, step: nat, r: seq<ChunkWithMeta>)
    requires off + len <= |s| && step >= 1
    requires NoHeadingIn(s, off, off + len) && LabelAt(s, section, off)
    requires r == Windows(s[off..off + len], size, step, Some(section), off)
    ensures AllChunksOK(s, r) && OffsetsAtLeast(r, off) && OffsetsBelow(r, off + len)
  {
    forall c | c in r ensures ChunkOK(s, c) && off <= c.charOffset < off + len {
      var k :| 0 <= k < |r| && r[k] == c;
      WindowCountIff(len, step, k);
      var start := k * step;
      WindowSound(s, off, len, section, size, start);
    }
  }

  /** Window starts strictly increase. */
  lemma WindowsIncreasing(t: string, size: int, step: nat, section: Option<string>, base: int)
    requires step >= 1
    ensures Increasing(Windows(t, size, step, section, base))
  {
    var r := Windows(t, size, step, section, base);
    forall i, j | 0 <= i < j < |r| ensures r[i].charOffset < r[j].charOffset {
      MulMono(i + 1, j, step);
      assert (i + 1) * step == i * step + step;
    }
  }

  /** The pieces of a sound chapter are sound chunks inside it, in order. */
  lemma PiecesSound(s: string, ch: Chapter, maxChunkSize: int, overlap: int, r: seq<ChunkWithMeta>)
    requires ChapterOK(s, ch) && r == ChapterPieces(ch, maxChunkSize, overlap)
    ensures && AllChunksOK(s, r) && Increasing(r)
            && OffsetsAtLeast(r, ch.offset) && OffsetsBelow(r, ch.offset + |ch.text|)
  {
    var t := ch.text;
    if |t| > maxChunkSize {
      var step := Step(maxChunkSize, overlap);
      var off, len := ch.offset, |t|;
      WindowsSound(s, off, len, ch.section, maxChunkSize, step, r);
      WindowsIncreasing(t, maxChunkSize, step, Some(ch.section), off);
    } else {
      OnePieceSound(s, ch, r);
    }
  }

  /** A chapter that fits is one sound chunk. */
  lemma OnePieceSound(s: string, ch: Chapter, r: seq<ChunkWithMeta>)
    requires ChapterOK(s, ch) && |ch.text| > 0
    requires r == [ChunkWithMeta(ch.text, Some(ch.section), ch.offset)]
    ensures && AllChunksOK(s, r) && Increasing(r)
            && OffsetsAtLeast(r, ch.offset) && OffsetsBelow(r, ch.offset + |ch.text|)
  {
    ChunkOKIntro(s, ch.text, ch.section, ch.offset);
  }

  lemma {:induction false} ChunksOfSound(s: string, chs: seq<Chapter>, maxChunkSize: int, overlap: int, lo: int)
    requires AllChaptersOK(s, chs, lo) && NonOverlapping(chs)
    ensures var r := ChunksOf(chs, maxChunkSize, overlap);
            AllChunksOK(s, r) && Increasing(r) && OffsetsAtLeast(r, lo)
  {
    if chs != [] {
      var ch := chs[0];
      assert ch in chs;
      var end := ch.offset + |ch.text|;
      var head := ChapterPieces(ch, maxChunkSize, overlap);
      PiecesSound(s, ch, maxChunkSize, overlap, head);
      ChaptersOKTail(s, chs, lo);
      NonOverlappingTail(chs);
      ChunksOfSound(s, chs[1..], maxChunkSize, overlap, end);
      var tail := ChunksOf(chs[1..], maxChunkSize, overlap);
      assert ChunksOf(chs, maxChunkSize, overlap) == head + tail;
      IncreasingAppend(head, tail, end);
    }
  }

  /** The chapters after the first start after it ends. */
  lemma ChaptersOKTail(s: string, chs: seq<Chapter>, lo: int)
    requires chs != [] && AllChaptersOK(s, chs, lo) && NonOverlapping(chs)
    ensures AllChaptersOK(s, chs[1..], chs[0].offset + |chs[0].text|)
  {
    var rest := chs[1..];
    forall ch | ch in rest ensures ChapterOK(s, ch) && ch.offset >= chs[0].offset + |chs[0].text| {
      var k :| 0 <= k < |rest| && rest[k] == ch;
      assert chs[k + 1] == ch;
    }
  }

  lemma NonOverlappingTail(chs: seq<Chapter>)
    requires chs != [] && NonOverlapping(chs)
    ensures NonOverlapping(chs[1..])
  {
    var rest := chs[1..];
    forall i, j | 0 <= i < j < |rest| ensures rest[i].offset + |rest[i].text| <= rest[j].offset {
      assert rest[i] == chs[i + 1] && rest[j] == chs[j + 1];
    }
  }

  /** What chunkByChapter produces: every chunk is the original text sliced
      at its offset, no heading starts inside it, and it carries "Preamble"
      when no heading precedes it and otherwise the trimmed text of the last
      heading before it; offsets strictly increase. */
  lemma ChunkByChapterSound(text: string, maxChunkSize: int, overlap: int)
    ensures var r := ChunksOf(Chapters(text), maxChunkSize, overlap);
            AllChunksOK(text, r) && Increasing(r)
  {
    ChaptersSound(text);
    ChunksOfSound(text, Chapters(text), maxChunkSize, overlap, 0);
  }

  /** A body that fits becomes exactly one chunk; a longer one becomes chunks
      at offsets ch.offset + k·step of at most maxChunkSize characters, all
      labelled with the chapter's section. */
  lemma ChapterPiecesShape(ch: Chapter, maxChunkSize: int, overlap: int)
    ensures var r := ChapterPieces(ch, maxChunkSize, overlap);
            var step := Step(maxChunkSize, overlap);
            && (|ch.text| <= maxChunkSize ==> r == [ChunkWithMeta(ch.text, Some(ch.section), ch.offset)])
            && (|ch.text| > maxChunkSize ==>
                  && |r| == WindowCount(|ch.text|, step)
                  && forall k :: 0 <= k < |r| ==>
                       && r[k].charOffset == ch.offset + k * step
                       && r[k].section == Some(ch.section)
                       && (maxChunkSize >= 0 ==> |r[k].text| <= maxChunkSize))
  {
    if |ch.text| > maxChunkSize && maxChunkSize >= 0 {
      var r := ChapterPieces(ch, maxChunkSize, overlap);
      var step := Step(maxChunkSize, overlap);
      forall k | 0 <= k < |r| ensures |r[k].text| <= maxChunkSize {
        WindowCountIff(|ch.text|, step, k);
        WindowIsSlice(ch.text, maxChunkSize, k * step, Some(ch.section), ch.offset);
      }
    }
  }
}

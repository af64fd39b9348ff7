/** The parts of ECMAScript's string and array library that the core relies
    on, stated over Dafny strings (sequences of characters): the `\s` and
    `\w` character classes, `trim`, `split(/\s+/).filter(Boolean)`, `join`,
    `slice`, `indexOf`, ASCII lower-casing and the decimal rendering of an
    integer in a template string. */
module JsText {

  /** ECMAScript LineTerminator: what `.` in a regular expression refuses. */
  predicate IsLineTerminator(c: char)
  {
    c == '\n' || c == '\r' || c == '\U{2028}' || c == '\U{2029}'
  }

  /** ECMAScript WhiteSpace or LineTerminator: what `\s` matches and what
      `trim` removes. */
  predicate IsSpace(c: char)
  {
    || IsLineTerminator(c)
    || c == '\t' || c == '\U{000B}' || c == '\U{000C}' || c == ' '
    || c == '\U{00A0}' || c == '\U{1680}' || ('\U{2000}' <= c <= '\U{200A}')
    || c == '\U{202F}' || c == '\U{205F}' || c == '\U{3000}' || c == '\U{FEFF}'
  }

  /** What `\w` matches outside Unicode mode: [A-Za-z0-9_]. */
  predicate IsWordChar(c: char)
  {
    ('a' <= c <= 'z') || ('A' <= c <= 'Z') || ('0' <= c <= '9') || c == '_'
  }

  predicate IsUpperAscii(c: char)
  {
    'A' <= c <= 'Z'
  }

  /** Lower-casing of one character, ASCII letters only. This is SQLite's
      `lower()`, and it is also `toLowerCase` on every string the core
      lower-cases, since those hold only `\w` and `\s` characters. */
  function LowerChar(c: char): char
  {
    if IsUpperAscii(c) then (c as int + 32) as char else c
  }

  function Lower(s: string): string
  {
    seq(|s|, i requires 0 <= i < |s| => LowerChar(s[i]))
  }

  // ---------------------------------------------------------------------
  // trim

  /** The number of whitespace characters that open `s`. */
  function LeadingSpaces(s: string): (n: nat)
    ensures n <= |s|
    ensures n < |s| ==> !IsSpace(s[n])
  {
    if s != [] && IsSpace(s[0]) then 1 + LeadingSpaces(s[1..]) else 0
  }

  lemma {:induction false} LeadingSpacesAreSpaces(s: string)
    ensures forall i :: 0 <= i < LeadingSpaces(s) ==> IsSpace(s[i])
  {
    if s != [] && IsSpace(s[0]) {
      LeadingSpacesAreSpaces(s[1..]);
      forall i | 0 < i < LeadingSpaces(s) ensures IsSpace(s[i]) {
        assert s[i] == s[1..][i - 1];
      }
    }
  }

  /** The index just past the last non-whitespace character of `s`. */
  function TrailingStart(s: string): (n: nat)
    ensures n <= |s|
    ensures n > 0 ==> !IsSpace(s[n - 1])
  {
    if s != [] && IsSpace(s[|s| - 1]) then TrailingStart(s[..|s| - 1]) else |s|
  }

  lemma {:induction false} TrailingAreSpaces(s: string)
    ensures forall i :: TrailingStart(s) <= i < |s| ==> IsSpace(s[i])
  {
    if s != [] && IsSpace(s[|s| - 1]) {
      TrailingAreSpaces(s[..|s| - 1]);
    }
  }

  /** `String.prototype.trim`: the slice between the leading and the
      trailing whitespace. */
  function Trim(s: string): string
  {
    var a := LeadingSpaces(s);
    s[a..a + TrailingStart(s[a..])]
  }

  /** The result of `trim` neither starts nor ends with whitespace. */
  lemma TrimEnds(s: string)
    ensures var r := Trim(s);
            r != [] ==> !IsSpace(r[0]) && !IsSpace(r[|r| - 1])
  {
    var a := LeadingSpaces(s);
    var t := s[a..];
    var r := s[a..a + TrailingStart(t)];
    if r != [] {
      assert r[0] == s[a];
      assert r[|r| - 1] == t[TrailingStart(t) - 1];
    }
  }

  /** A string trims to "" exactly when it is all whitespace: the test
      `part.trim()` is falsy exactly for whitespace-only parts. */
  lemma TrimEmptyIffBlank(s: string)
    ensures Trim(s) == [] <==> forall i :: 0 <= i < |s| ==> IsSpace(s[i])
  {
    var a := LeadingSpaces(s);
    var t := s[a..];
    LeadingSpacesAreSpaces(s);
    if a < |s| {
      TrailingAreSpaces(t);
      assert t[0] == s[a];
    }
  }

  // ---------------------------------------------------------------------
  // split(/\s+/).filter(Boolean) and join

  /** The first index at or after `i` holding whitespace, or |s|. */
  function WordEnd(s: string, i: nat): (n: nat)
    requires i <= |s|
    ensures i <= n <= |s|
    ensures forall j :: i <= j < n ==> !IsSpace(s[j])
    ensures n < |s| ==> IsSpace(s[n])
    decreases |s| - i
  {
    if i < |s| && !IsSpace(s[i]) then WordEnd(s, i + 1) else i
  }

  /** A maximal run's worth of text: non-empty and free of whitespace. */
  predicate IsWord(w: string)
  {
    w != [] && forall j :: 0 <= j < |w| ==> !IsSpace(w[j])
  }

  /** `s.split(/\s+/).filter(Boolean)`: splitting on runs of whitespace and
      dropping the empty strings a leading or trailing run leaves yields
      exactly the maximal runs of non-whitespace characters, in order. */
  function Words(s: string): (r: seq<string>)
    ensures forall k :: 0 <= k < |r| ==> IsWord(r[k])
    decreases |s|
  {
    var a := LeadingSpaces(s);
    if a == |s| then []
    else
      var b := WordEnd(s, a);
      [s[a..b]] + Words(s[b..])
  }

  /** `Array.prototype.join(sep)`. */
  function Join(ws: seq<string>, sep: string): string
  {
    if |ws| == 0 then ""
    else if |ws| == 1 then ws[0]
    else ws[0] + sep + Join(ws[1..], sep)
  }

  /** Joining non-empty pieces gives "" only for no pieces. */
  lemma {:induction false} JoinEmptyIff(ws: seq<string>, sep: string)
    requires forall k :: 0 <= k < |ws| ==> ws[k] != []
    ensures Join(ws, sep) == [] <==> ws == []
  {
    if |ws| > 1 {
      assert |Join(ws, sep)| >= |ws[0]| > 0;
    }
  }

  /** Whitespace in front of a string opens no word. */
  lemma {:induction false} WordsSkipsSpace(c: char, t: string)
    requires IsSpace(c)
    ensures Words([c] + t) == Words(t)
  {
    var s := [c] + t;
    assert s[1..] == t;
    assert LeadingSpaces(s) == 1 + LeadingSpaces(t);
    var a := LeadingSpaces(t);
    if a < |t| {
      WordEndShift(c, t, a);
      var b := WordEnd(t, a);
      assert s[a + 1..b + 1] == t[a..b];
      assert s[b + 1..] == t[b..];
    }
  }

  lemma {:induction false} WordEndShift(c: char, t: string, i: nat)
    requires i <= |t|
    ensures WordEnd([c] + t, i + 1) == 1 + WordEnd(t, i)
    decreases |t| - i
  {
    var s := [c] + t;
    assert s[i + 1..] == t[i..];
    if i < |t| && !IsSpace(t[i]) {
      assert s[i + 1] == t[i];
      WordEndShift(c, t, i + 1);
    }
  }

  /** A single word splits to itself, and a word followed by whitespace
      splits into that word and the words of the rest. */
  lemma {:induction false} WordsOfWordThen(w: string, t: string)
    requires IsWord(w)
    requires t == [] || IsSpace(t[0])
    ensures Words(w + t) == [w] + Words(t)
  {
    var s := w + t;
    assert s[0] == w[0];
    assert LeadingSpaces(s) == 0;
    WordEndOfWord(w, t, 0);
    assert s[0..|w|] == w;
    assert s[|w|..] == t;
  }

  lemma {:induction false} WordEndOfWord(w: string, t: string, i: nat)
    requires IsWord(w) && i <= |w|
    requires t == [] || IsSpace(t[0])
    ensures WordEnd(w + t, i) == |w|
    decreases |w| - i
  {
    var s := w + t;
    if i < |w| {
      assert s[i] == w[i];
      WordEndOfWord(w, t, i + 1);
    } else if i < |s| {
      assert s[i] == t[0];
    }
  }

  /** Round trip: splitting the space-joined list of words gives the list
      back, so the joined query string carries exactly its tokens. */
  lemma {:induction false} WordsOfJoin(ws: seq<string>)
    requires forall k :: 0 <= k < |ws| ==> IsWord(ws[k])
    ensures Words(Join(ws, " ")) == ws
  {
    if |ws| == 0 {
    } else if |ws| == 1 {
      WordsOfWordThen(ws[0], "");
      assert ws[0] + "" == ws[0];
    } else {
      var rest := Join(ws[1..], " ");
      assert Join(ws, " ") == ws[0] + (" " + rest);
      WordsOfWordThen(ws[0], " " + rest);
      assert " " + rest == [' '] + rest;
      WordsSkipsSpace(' ', rest);
      WordsOfJoin(ws[1..]);
      assert ws == [ws[0]] + ws[1..];
    }
  }

  // ---------------------------------------------------------------------
  // slice and indexOf

  /** How `slice` reads one bound: a negative bound counts from the end, and
      the result is clamped to [0, len]. */
  function ClampIndex(i: int, len: nat): (r: nat)
    ensures r <= len
    ensures 0 <= i <= len ==> r == i
  {
    if i < 0 then (if len + i < 0 then 0 else len + i)
    else if i > len then len
    else i
  }

  /** `String.prototype.slice(start, end)` and `Array.prototype.slice(start, end)`. */
  function Slice<T>(s: seq<T>, start: int, end: int): seq<T>
  {
    var from := ClampIndex(start, |s|);
    var to := ClampIndex(end, |s|);
    if from < to then s[from..to] else []
  }

  /** For in-range bounds `slice` is the plain subsequence, cut at the end. */
  lemma SliceInRange<T>(s: seq<T>, start: nat, len: nat)
    requires start <= |s|
    ensures Slice(s, start, start + len) == s[start..if start + len <= |s| then start + len else |s|]
  {
  }

  /** `s.slice(0, n)`, the first n elements. */
  function Prefix<T>(s: seq<T>, n: int): seq<T>
  {
    Slice(s, 0, n)
  }

  /** `s.slice(0, n)` keeps min(n, |s|) elements for n >= 0 and drops the
      last -n elements for negative n; in both cases it is a prefix. */
  lemma PrefixLength<T>(s: seq<T>, n: int)
    ensures n >= 0 ==> Prefix(s, n) == s[..if n <= |s| then n else |s|]
    ensures n < 0 ==> Prefix(s, n) == s[..if |s| + n < 0 then 0 else |s| + n]
  {
  }

  /** `sub` occurs in `s` starting at index i. */
  predicate OccursAt(s: string, sub: string, i: int)
  {
    0 <= i && i + |sub| <= |s| && s[i..i + |sub|] == sub
  }

  /** SQLite's `instr(x, y) > 0`: y occurs in x. */
  predicate Contains(s: string, sub: string)
  {
    exists i :: 0 <= i <= |s| - |sub| && OccursAt(s, sub, i)
  }

  /** The first index at or after k where `sub` occurs, or -1. */
  function IndexOfFrom(s: string, sub: string, k: nat): (r: int)
    requires k <= |s|
    ensures r == -1 || (k <= r && OccursAt(s, sub, r))
    ensures forall j :: k <= j && (r == -1 || j < r) ==> !OccursAt(s, sub, j)
    decreases |s| - k
  {
    if k + |sub| > |s| then -1
    else if s[k..k + |sub|] == sub then k
    else IndexOfFrom(s, sub, k + 1)
  }

  /** `String.prototype.indexOf(sub, from)`. */
  function IndexOf(s: string, sub: string, from: int): int
  {
    IndexOfFrom(s, sub, if from < 0 then 0 else if from > |s| then |s| else from)
  }

  /** Searching from a position where `sub` occurs finds that position. */
  lemma IndexOfAt(s: string, sub: string, from: nat)
    requires from + |sub| <= |s| && s[from..from + |sub|] == sub
    ensures IndexOf(s, sub, from) == from
  {
  }

  // ---------------------------------------------------------------------
  // integers in template strings

  predicate IsDigit(c: char)
  {
    '0' <= c <= '9'
  }

  function DigitChar(d: nat): (c: char)
    requires d < 10
    ensures IsDigit(c) && DigitValue(c) == d
  {
    ('0' as int + d) as char
  }

  /** The decimal digits of n, most significant first, without leading zeros. */
  function NatToString(n: nat): string
    decreases n
  {
    if n < 10 then [DigitChar(n)] else NatToString(n / 10) + [DigitChar(n % 10)]
  }

  /** `${i}` for an integer value i. */
  function IntToString(i: int): string
  {
    if i < 0 then "-" + NatToString(-i) else NatToString(i)
  }

  /** The number a string of decimal digits denotes. */
  function DigitsValue(s: string): nat
    requires forall j :: 0 <= j < |s| ==> IsDigit(s[j])
  {
    if s == [] then 0 else DigitsValue(s[..|s| - 1]) * 10 + DigitValue(s[|s| - 1])
  }

  function DigitValue(c: char): nat
    requires IsDigit(c)
  {
    c as int - '0' as int
  }

  /** Reading the rendered digits back gives the number: the rendering is a
      faithful decimal numeral. */
  lemma {:induction false} NatToStringRoundTrip(n: nat)
    ensures var s := NatToString(n);
            s != [] && (forall j :: 0 <= j < |s| ==> IsDigit(s[j])) && DigitsValue(s) == n
    decreases n
  {
    if n >= 10 {
      NatToStringRoundTrip(n / 10);
      var s := NatToString(n);
      assert s[..|s| - 1] == NatToString(n / 10);
    }
  }
}

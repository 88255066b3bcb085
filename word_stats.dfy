/**
 * The entry editor's statistics line: the word count is
 * `content.trim().split(/\s+/).filter(w => w.length > 0).length` and the
 * character count is `content.length` (src/components/diary/editor.tsx:31-35).
 *
 * Strings are sequences of Unicode scalar values. JavaScript's `length` counts
 * UTF-16 code units, so a character outside the Basic Multilingual Plane counts two.
 */
module WordStats {

  /**
   * The characters matched by the regular-expression class `\s` of ECMAScript,
   * which is also the set `String.prototype.trim` strips: the WhiteSpace
   * characters (tab, vertical tab, form feed, space, no-break space, byte order
   * mark and the other space separators) and the LineTerminator characters.
   */
  predicate IsWhitespace(c: char) {
    || c == '\t' || c == '\n' || c == '\U{000B}' || c == '\U{000C}' || c == '\r'
    || c == ' ' || c == '\U{00A0}' || c == '\U{1680}'
    || ('\U{2000}' <= c <= '\U{200A}')
    || c == '\U{2028}' || c == '\U{2029}' || c == '\U{202F}' || c == '\U{205F}'
    || c == '\U{3000}' || c == '\U{FEFF}'
  }

  predicate AllWhitespace(s: string) {
    forall i :: 0 <= i < |s| ==> IsWhitespace(s[i])
  }

  predicate NoWhitespace(s: string) {
    forall i :: 0 <= i < |s| ==> !IsWhitespace(s[i])
  }

  // ---------------------------------------------------------------------------
  // trim, split(/\s+/), filter, length: the source's pipeline
  // ---------------------------------------------------------------------------

  /** `s` without its leading whitespace. */
  function TrimStart(s: string): string {
    if s != [] && IsWhitespace(s[0]) then TrimStart(s[1..]) else s
  }

  /** `s` without its trailing whitespace. */
  function TrimEnd(s: string): string {
    if s != [] && IsWhitespace(s[|s| - 1]) then TrimEnd(s[..|s| - 1]) else s
  }

  /** `String.prototype.trim`. */
  function Trim(s: string): string {
    TrimEnd(TrimStart(s))
  }

  /**
   * `s.split(/\s+/)`, with `cur` the piece collected so far and `gap` telling
   * whether the previous character was whitespace: the first character of
   * each maximal whitespace run ends a piece, so leading or trailing
   * whitespace yields an empty first or last piece and the empty string
   * yields one empty piece.
   */
  function SplitFrom(s: string, cur: string, gap: bool): seq<string> {
    if s == [] then [cur]
    else if IsWhitespace(s[0]) then
      if gap then SplitFrom(s[1..], [], true) else [cur] + SplitFrom(s[1..], [], true)
    else SplitFrom(s[1..], cur + [s[0]], false)
  }

  function Split(s: string): seq<string> {
    SplitFrom(s, [], false)
  }

  /** `.filter((w) => w.length > 0)`. */
  function NonEmpty(pieces: seq<string>): seq<string> {
    if pieces == [] then []
    else if pieces[0] == [] then NonEmpty(pieces[1..])
    else [pieces[0]] + NonEmpty(pieces[1..])
  }

  /** The words the editor counts. */
  function Words(content: string): seq<string> {
    NonEmpty(Split(Trim(content)))
  }

  /** The `wordCount` the stats effect stores (editor.tsx:32). */
  function WordCount(content: string): nat {
    |Words(content)|
  }

  /** The `charCount` the stats effect stores: JavaScript's `content.length` (editor.tsx:34). */
  function CharCount(content: string): nat {
    if content == [] then 0
    else CodeUnits(content[0]) + CharCount(content[1..])
  }

  /** How many UTF-16 code units encode `c`. */
  function CodeUnits(c: char): nat {
    if c as int > 0xFFFF then 2 else 1
  }

  // ---------------------------------------------------------------------------
  // What trimming and splitting produce
  // ---------------------------------------------------------------------------

  /** `TrimStart` drops a whitespace prefix and stops at a non-whitespace character. */
  lemma {:induction false} TrimStartShape(s: string)
    ensures var r := TrimStart(s);
      |r| <= |s| && r == s[|s| - |r|..] && AllWhitespace(s[..|s| - |r|])
      && (r == [] || !IsWhitespace(r[0]))
  {
    if s != [] && IsWhitespace(s[0]) {
      TrimStartShape(s[1..]);
      var r := TrimStart(s);
      assert s[..|s| - |r|] == [s[0]] + s[1..][..|s| - 1 - |r|];
    }
  }

  /** `TrimEnd` drops a whitespace suffix and stops at a non-whitespace character. */
  lemma {:induction false} TrimEndShape(s: string)
    ensures var r := TrimEnd(s);
      |r| <= |s| && r == s[..|r|] && AllWhitespace(s[|r|..])
      && (r == [] || !IsWhitespace(r[|r| - 1]))
  {
    if s != [] && IsWhitespace(s[|s| - 1]) {
      var p := s[..|s| - 1];
      TrimEndShape(p);
      var r := TrimEnd(s);
      assert s[|r|..] == p[|r|..] + [s[|s| - 1]];
    }
  }

  /** No piece of a split contains whitespace. */
  lemma {:induction false} SplitPiecesWhitespaceFree(s: string, cur: string, gap: bool)
    requires NoWhitespace(cur)
    ensures forall i :: 0 <= i < |SplitFrom(s, cur, gap)| ==> NoWhitespace(SplitFrom(s, cur, gap)[i])
  {
    if s != [] {
      if IsWhitespace(s[0]) {
        SplitPiecesWhitespaceFree(s[1..], [], true);
      } else {
        SplitPiecesWhitespaceFree(s[1..], cur + [s[0]], false);
      }
    }
  }

  // ---------------------------------------------------------------------------
  // Reference definition: maximal non-whitespace runs
  // ---------------------------------------------------------------------------

  /**
   * The number of maximal runs of non-whitespace characters in `s`, where
   * `boundary` says whether the position before `s` ends a run (is the start
   * of the text or whitespace).
   */
  function RunsAfter(s: string, boundary: bool): nat {
    if s == [] then 0
    else if IsWhitespace(s[0]) then RunsAfter(s[1..], true)
    else (if boundary then 1 else 0) + RunsAfter(s[1..], false)
  }

  /** The number of maximal runs of non-whitespace characters in `s`. */
  function RunCount(s: string): nat {
    RunsAfter(s, true)
  }

  // ---------------------------------------------------------------------------
  // The word count is the run count
  // ---------------------------------------------------------------------------

  lemma {:induction false} NonEmptyAppend(a: seq<string>, b: seq<string>)
    ensures NonEmpty(a + b) == NonEmpty(a) + NonEmpty(b)
  {
    if a == [] {
      assert a + b == b;
    } else {
      assert (a + b)[1..] == a[1..] + b;
      NonEmptyAppend(a[1..], b);
    }
  }

  /** Whitespace in front of the text starts no run. */
  lemma {:induction false} RunsAfterTrimStart(s: string)
    ensures RunsAfter(TrimStart(s), true) == RunsAfter(s, true)
  {
    if s != [] && IsWhitespace(s[0]) {
      RunsAfterTrimStart(s[1..]);
    }
  }

  /** Whitespace after the text starts no run. */
  lemma {:induction false} RunsAfterTrailingWhitespace(a: string, w: string, boundary: bool)
    requires AllWhitespace(w)
    ensures RunsAfter(a + w, boundary) == RunsAfter(a, boundary)
  {
    if a == [] {
      assert a + w == w;
      OnlyWhitespaceHasNoRuns(w, boundary);
    } else {
      assert (a + w)[1..] == a[1..] + w;
      if IsWhitespace(a[0]) {
        RunsAfterTrailingWhitespace(a[1..], w, true);
      } else {
        RunsAfterTrailingWhitespace(a[1..], w, false);
      }
    }
  }

  lemma {:induction false} OnlyWhitespaceHasNoRuns(w: string, boundary: bool)
    requires AllWhitespace(w)
    ensures RunsAfter(w, boundary) == 0
  {
    if w != [] {
      OnlyWhitespaceHasNoRuns(w[1..], true);
    }
  }

  /** Trimming does not change the number of runs. */
  lemma RunCountTrim(s: string)
    ensures RunCount(Trim(s)) == RunCount(s)
  {
    var t := TrimStart(s);
    RunsAfterTrimStart(s);
    var e := TrimEnd(t);
    TrimEndShape(t);
    assert t == e + t[|e|..];
    RunsAfterTrailingWhitespace(e, t[|e|..], true);
  }

  /**
   * The non-empty pieces of `split(/\s+/)` are exactly the runs: one for the
   * piece in progress if it is non-empty, plus the runs still to come.
   */
  lemma {:induction false} SplitFromCountsRuns(s: string, cur: string, gap: bool)
    requires NoWhitespace(cur) && (gap ==> cur == [])
    ensures |NonEmpty(SplitFrom(s, cur, gap))| == RunsAfter(s, cur == []) + (if cur == [] then 0 else 1)
  {
    if s == [] {
    } else if IsWhitespace(s[0]) {
      SplitFromCountsRuns(s[1..], [], true);
      if !gap {
        NonEmptyAppend([cur], SplitFrom(s[1..], [], true));
      }
    } else {
      SplitFromCountsRuns(s[1..], cur + [s[0]], false);
    }
  }

  /**
   * The editor's word count is the number of maximal non-whitespace runs in
   * the content (editor.tsx:32).
   */
  lemma WordCountIsRunCount(content: string)
    ensures WordCount(content) == RunCount(content)
  {
    SplitFromCountsRuns(Trim(content), [], false);
    RunCountTrim(content);
  }

  /** A text with a non-whitespace character has at least one run. */
  lemma {:induction false} RunsAfterPositive(s: string, i: nat)
    requires i < |s| && !IsWhitespace(s[i])
    ensures RunsAfter(s, true) >= 1
  {
    if IsWhitespace(s[0]) {
      RunsAfterPositive(s[1..], i - 1);
    }
  }

  /**
   * The word count is zero exactly for the empty string and for strings of
   * whitespace only.
   */
  lemma WordCountZero(content: string)
    ensures WordCount(content) == 0 <==> AllWhitespace(content)
  {
    WordCountIsRunCount(content);
    if AllWhitespace(content) {
      OnlyWhitespaceHasNoRuns(content, true);
    } else {
      var i :| 0 <= i < |content| && !IsWhitespace(content[i]);
      RunsAfterPositive(content, i);
    }
  }

  /** Each counted word is a non-empty stretch without whitespace. */
  lemma WordsAreWhitespaceFree(content: string)
    ensures forall i :: 0 <= i < |Words(content)| ==>
      Words(content)[i] != [] && NoWhitespace(Words(content)[i])
  {
    SplitPiecesWhitespaceFree(Trim(content), [], false);
    NonEmptyKeeps(Split(Trim(content)));
  }

  lemma {:induction false} NonEmptyKeeps(pieces: seq<string>)
    requires forall i :: 0 <= i < |pieces| ==> NoWhitespace(pieces[i])
    ensures forall i :: 0 <= i < |NonEmpty(pieces)| ==>
      NonEmpty(pieces)[i] != [] && NoWhitespace(NonEmpty(pieces)[i])
  {
    if pieces != [] {
      NonEmptyKeeps(pieces[1..]);
    }
  }

  // ---------------------------------------------------------------------------
  // Character count
  // ---------------------------------------------------------------------------

  /** The character count of a concatenation is the sum of the counts. */
  lemma {:induction false} CharCountAppend(a: string, b: string)
    ensures CharCount(a + b) == CharCount(a) + CharCount(b)
  {
    if a == [] {
      assert a + b == b;
    } else {
      assert (a + b)[1..] == a[1..] + b;
      CharCountAppend(a[1..], b);
    }
  }

  /** Every character counts at least one code unit and at most two. */
  lemma {:induction false} CharCountBounds(content: string)
    ensures |content| <= CharCount(content) <= 2 * |content|
  {
    if content != [] {
      CharCountBounds(content[1..]);
    }
  }

  /**
   * Whitespace is counted like any other character: a text within the Basic
   * Multilingual Plane has as many code units as characters, untrimmed.
   */
  lemma {:induction false} CharCountBmp(content: string)
    requires forall i :: 0 <= i < |content| ==> content[i] as int <= 0xFFFF
    ensures CharCount(content) == |content|
  {
    if content != [] {
      CharCountBmp(content[1..]);
    }
  }
}

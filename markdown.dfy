/**
 * The line classifier and the bold-span splitter of the article body renderer
 * (ui/components/MarkdownText.kt), without the rendering itself. Each line of the body is given
 * one kind by ordered prefix tests; the text of bullets, numbered items and paragraphs is split
 * into plain and bold segments around `**...**` and `__...__`.
 */
module Markdown {
  import opened Models
  import opened Strings

  // ---------------------------------------------------------------------------------------------
  // Splitting the body into lines
  // ---------------------------------------------------------------------------------------------

  predicate IsLineBreak(c: char) {
    c == '\n' || c == '\r'
  }

  /** The index of the first line break at or after `from`, or `|s|` when there is none. */
  function FirstBreakFrom(s: string, from: nat): (b: nat)
    requires from <= |s|
    decreases |s| - from
    ensures from <= b <= |s|
    ensures b < |s| ==> IsLineBreak(s[b])
    ensures forall i :: from <= i < b ==> !IsLineBreak(s[i])
  {
    if from == |s| || IsLineBreak(s[from]) then from else FirstBreakFrom(s, from + 1)
  }

  /** The length of the line break at `b`: "\r\n" counts as one break. */
  function BreakLength(s: string, b: nat): (n: nat)
    requires b < |s| && IsLineBreak(s[b])
    ensures 1 <= n <= 2 && b + n <= |s|
  {
    if s[b] == '\r' && b + 1 < |s| && s[b + 1] == '\n' then 2 else 1
  }

  /** Kotlin `lines()`: splits at "\r\n", "\n" and "\r"; a trailing break ends with an empty line. */
  function Lines(s: string): (r: seq<string>)
    decreases |s|
    ensures |r| >= 1
    ensures forall i, j :: 0 <= i < |r| && 0 <= j < |r[i]| ==> !IsLineBreak(r[i][j])
  {
    var b := FirstBreakFrom(s, 0);
    if b == |s| then [s]
    else [s[..b]] + Lines(s[b + BreakLength(s, b)..])
  }

  /** The lines joined back with "\n". */
  function JoinLines(lines: seq<string>): string
    requires |lines| >= 1
  {
    if |lines| == 1 then lines[0] else lines[0] + "\n" + JoinLines(lines[1..])
  }

  /** On text without carriage returns, splitting into lines loses nothing. */
  lemma {:induction false} LinesJoinBack(s: string)
    requires forall i :: 0 <= i < |s| ==> s[i] != '\r'
    ensures JoinLines(Lines(s)) == s
    decreases |s|
  {
    var b := FirstBreakFrom(s, 0);
    if b < |s| {
      var rest := s[b + 1..];
      assert s[b] == '\n' && BreakLength(s, b) == 1;
      assert forall i :: 0 <= i < |rest| ==> rest[i] == s[b + 1 + i];
      LinesJoinBack(rest);
      var lines := Lines(s);
      assert lines == [s[..b]] + Lines(rest);
      assert lines[1..] == Lines(rest);
      calc {
        JoinLines(lines);
        s[..b] + "\n" + JoinLines(Lines(rest));
        s[..b] + "\n" + rest;
        { SplitAround(s, b); }
        s;
      }
    }
  }

  /** A string is what comes before position `b`, the character at `b`, and what follows it. */
  lemma SplitAround(s: string, b: nat)
    requires b < |s|
    ensures s == s[..b] + [s[b]] + s[b + 1..]
  {
    assert s == s[..b] + s[b..];
    assert s[b..] == [s[b]] + s[b + 1..];
  }

  // ---------------------------------------------------------------------------------------------
  // Classifying a line
  // ---------------------------------------------------------------------------------------------

  datatype LineKind =
    | Heading1(text: string)
    | Heading2(text: string)
    | Heading3(text: string)
    | Bullet(text: string)
    | NumberedItem(number: string, text: string)
    | CodeFence
    | Blank
    | Paragraph(text: string)

  /** The characters Java's regex `.` does not match. */
  predicate IsLineTerminator(c: char) {
    c == '\n' || c == '\r' || c == '\U{85}' || c == '\U{2028}' || c == '\U{2029}'
  }

  /** The end of the run of digits starting at `i`. */
  function DigitsEnd(s: string, i: nat): (n: nat)
    requires i <= |s|
    decreases |s| - i
    ensures i <= n <= |s|
    ensures forall k :: i <= k < n ==> IsDecimalDigit(s[k])
    ensures n < |s| ==> !IsDecimalDigit(s[n])
  {
    if i == |s| || !IsDecimalDigit(s[i]) then i else DigitsEnd(s, i + 1)
  }

  /** The number of leading digits of `s`. */
  function DigitRun(s: string): (n: nat)
    ensures n <= |s|
    ensures forall i :: 0 <= i < n ==> IsDecimalDigit(s[i])
    ensures n < |s| ==> !IsDecimalDigit(s[n])
  {
    DigitsEnd(s, 0)
  }

  /** The whole of `t` matches the regex `\d+\. .*`. */
  predicate IsNumberedItem(t: string) {
    var n := DigitRun(t);
    && n > 0
    && StartsWith(t[n..], ". ")
    && forall i :: n + 2 <= i < |t| ==> !IsLineTerminator(t[i])
  }

  /**
   * In a numbered item the first "." and the first ". " both sit right after the digits, so the
   * text before "." is the digits and the text after ". " is the rest of the item.
   */
  lemma NumberedItemParts(t: string)
    requires IsNumberedItem(t)
    ensures SubstringBefore(t, ".") == t[..DigitRun(t)]
    ensures SubstringAfter(t, ". ") == t[DigitRun(t) + 2..]
    ensures t == t[..DigitRun(t)] + ". " + t[DigitRun(t) + 2..]
  {
    var n := DigitRun(t);
    assert t[n..][..2] == t[n..n + 2];
    assert OccursAt(t, ".", n) && OccursAt(t, ". ", n);
    forall i: nat | i < n
      ensures !OccursAt(t, ".", i) && !OccursAt(t, ". ", i)
    {
      assert IsDecimalDigit(t[i]);
      assert t[i..i + 1][0] == t[i];
      if i + 2 <= |t| {
        assert t[i..i + 2][0] == t[i];
      }
    }
    IndexOfFirst(t, ".", n);
    IndexOfFirst(t, ". ", n);
  }

  /** At most one of the three heading prefixes starts a line. */
  lemma HeadingPrefixesExclusive(line: string)
    ensures StartsWith(line, "# ") ==> !StartsWith(line, "## ") && !StartsWith(line, "### ")
    ensures StartsWith(line, "## ") ==> !StartsWith(line, "### ")
  {
    if StartsWith(line, "# ") {
      assert line[1] == "# "[1];
    }
    if StartsWith(line, "## ") {
      assert line[2] == "## "[2];
    }
  }

  /** A blank line starts with no heading prefix. */
  lemma BlankLineIsNoHeading(line: string)
    ensures IsBlank(line) ==> !StartsWith(line, "# ") && !StartsWith(line, "## ") && !StartsWith(line, "### ")
  {
    if IsBlank(line) && |line| > 0 {
      assert IsWhitespace(line[0]);
    }
  }

  /**
   * The kind of one line, by the first test that holds: heading prefixes on the line as it is,
   * then bullet, numbered item and code fence on the trimmed line, then blank, else paragraph.
   */
  function ClassifyLine(line: string): LineKind {
    var trimmed := Trim(line);
    if StartsWith(line, "# ") then Heading1(RemovePrefix(line, "# "))
    else if StartsWith(line, "## ") then Heading2(RemovePrefix(line, "## "))
    else if StartsWith(line, "### ") then Heading3(RemovePrefix(line, "### "))
    else if StartsWith(trimmed, "- ") then Bullet(RemovePrefix(trimmed, "- "))
    else if IsNumberedItem(trimmed) then
      NumberedItem(SubstringBefore(trimmed, "."), SubstringAfter(trimmed, ". "))
    else if StartsWith(trimmed, "```") then CodeFence
    else if IsBlank(line) then Blank
    else Paragraph(line)
  }

  /** A line is a heading exactly when it starts with that heading's prefix; the text follows it. */
  lemma ClassifyHeadings(line: string)
    ensures var k := ClassifyLine(line);
            && (k.Heading1? <==> StartsWith(line, "# "))
            && (k.Heading2? <==> StartsWith(line, "## "))
            && (k.Heading3? <==> StartsWith(line, "### "))
            && (k.Heading1? ==> line == "# " + k.text)
            && (k.Heading2? ==> line == "## " + k.text)
            && (k.Heading3? ==> line == "### " + k.text)
  {
    HeadingPrefixesExclusive(line);
  }

  /** The line, as it is, starts with one of the three heading prefixes. */
  predicate HasHeadingPrefix(line: string) {
    StartsWith(line, "# ") || StartsWith(line, "## ") || StartsWith(line, "### ")
  }

  /**
   * Bullets and numbered items are recognised on the trimmed line, and only when no heading
   * prefix matched: a line whose trimmed text starts with "- " is a bullet with the text after
   * it; failing that, a trimmed line of the form digits, ". ", text is a numbered item.
   */
  lemma ClassifyListItems(line: string)
    ensures var k := ClassifyLine(line);
            var t := Trim(line);
            && (!HasHeadingPrefix(line) && StartsWith(t, "- ") ==> k == Bullet(t[2..]))
            && (!HasHeadingPrefix(line) && !StartsWith(t, "- ") && IsNumberedItem(t)
                ==> k == NumberedItem(t[..DigitRun(t)], t[DigitRun(t) + 2..]))
            && (k.Bullet? ==> !HasHeadingPrefix(line) && t == "- " + k.text)
            && (k.NumberedItem? ==> && !HasHeadingPrefix(line) && !StartsWith(t, "- ")
                                    && |k.number| > 0
                                    && (forall i :: 0 <= i < |k.number| ==> IsDecimalDigit(k.number[i]))
                                    && t == k.number + ". " + k.text)
  {
    var t := Trim(line);
    if IsNumberedItem(t) {
      NumberedItemParts(t);
    }
  }

  /**
   * The remaining kinds, in order: a code fence when no earlier test matched and the trimmed
   * line starts with three backticks; blank exactly for a blank line; a paragraph, holding the
   * whole line, for every other line.
   */
  lemma ClassifyRest(line: string)
    ensures var k := ClassifyLine(line);
            var t := Trim(line);
            var listItem := StartsWith(t, "- ") || IsNumberedItem(t);
            && (k.CodeFence? <==> !HasHeadingPrefix(line) && !listItem && StartsWith(t, "```"))
            && (k.Blank? <==> IsBlank(line))
            && (k.Paragraph? <==> !HasHeadingPrefix(line) && !listItem && !StartsWith(t, "```") && !IsBlank(line))
            && (k.Paragraph? ==> k.text == line)
  {
    BlankLineIsNoHeading(line);
    var t := Trim(line);
    if IsBlank(line) {
      assert t == [];
      assert !IsNumberedItem(t);
    }
  }

  /** Heading tests look at the untrimmed line: an indented `#` line is not a heading. */
  lemma IndentedHashIsNotHeading(line: string)
    requires |line| > 0 && IsWhitespace(line[0])
    ensures !ClassifyLine(line).Heading1? && !ClassifyLine(line).Heading2? && !ClassifyLine(line).Heading3?
  {
    ClassifyHeadings(line);
    assert line[0] != '#';
  }

  // ---------------------------------------------------------------------------------------------
  // Bold spans
  // ---------------------------------------------------------------------------------------------

  /**
   * One match of `\*\*(.+?)\*\*|__(.+?)__`: the text range [start, end), the delimiter
   * character (`*` or `_`, written twice on each side) and the inner text.
   */
  datatype BoldMatch = BoldMatch(start: nat, end: nat, mark: char, inner: string)

  predicate IsMark(c: char) {
    c == '*' || c == '_'
  }

  /** The delimiter `cc` occurs at position `i`. */
  predicate DoubledAt(text: string, c: char, i: nat) {
    i + 1 < |text| && text[i] == c && text[i + 1] == c
  }

  /** `m` is a bold span of `text`: delimiter, non-empty inner text on one line, delimiter. */
  predicate IsBoldSpan(text: string, m: BoldMatch) {
    && IsMark(m.mark)
    && m.start + 5 <= m.end <= |text|
    && DoubledAt(text, m.mark, m.start)
    && DoubledAt(text, m.mark, m.end - 2)
    && m.inner == text[m.start + 2..m.end - 2]
    && forall i :: m.start + 2 <= i < m.end - 2 ==> !IsLineTerminator(text[i])
  }

  /**
   * The lazy search for the closing delimiter from `k`: the first `k' >= k` where it occurs,
   * unless a line terminator comes first.
   */
  function CloseFrom(text: string, c: char, k: nat): (r: Option<nat>)
    requires k <= |text|
    decreases |text| - k
    ensures r.Some? ==> k <= r.value && DoubledAt(text, c, r.value)
    ensures r.Some? ==> forall i :: k <= i < r.value ==> !IsLineTerminator(text[i]) && !DoubledAt(text, c, i)
  {
    if DoubledAt(text, c, k) then Some(k)
    else if k == |text| || IsLineTerminator(text[k]) then None
    else CloseFrom(text, c, k + 1)
  }

  /** The match of one alternative, `cc(.+?)cc`, starting exactly at `s`. */
  function DelimitedAt(text: string, s: nat, c: char): (r: Option<BoldMatch>)
    requires IsMark(c)
    ensures r.Some? ==> IsBoldSpan(text, r.value) && r.value.start == s && r.value.mark == c
  {
    if DoubledAt(text, c, s) && s + 2 < |text| && !IsLineTerminator(text[s + 2]) then
      match CloseFrom(text, c, s + 3)
      case Some(k) => Some(BoldMatch(s, k + 2, c, text[s + 2..k]))
      case None => None
    else None
  }

  /** The match starting exactly at `s`: the `**` alternative is tried before `__`. */
  function MatchAt(text: string, s: nat): (r: Option<BoldMatch>)
    ensures r.Some? ==> IsBoldSpan(text, r.value) && r.value.start == s
    ensures r.Some? && r.value.mark == '_' ==> DelimitedAt(text, s, '*').None?
    ensures r.Some? ==> r == DelimitedAt(text, s, r.value.mark)
  {
    var star := DelimitedAt(text, s, '*');
    if star.Some? then star else DelimitedAt(text, s, '_')
  }

  /**
   * The lazy search misses no closing delimiter: when one occurs at `j >= k` with no line
   * terminator before it, the search finds one, at `j` or earlier.
   */
  lemma {:induction false} CloseFromFinds(text: string, c: char, k: nat, j: nat)
    requires k <= j && DoubledAt(text, c, j)
    requires forall i :: k <= i < j ==> !IsLineTerminator(text[i])
    decreases j - k
    ensures CloseFrom(text, c, k).Some? && CloseFrom(text, c, k).value <= j
  {
    if !DoubledAt(text, c, k) {
      CloseFromFinds(text, c, k + 1, j);
    }
  }

  /**
   * Every bold span is found by the search at its start and delimiter, which returns the
   * shortest such span (the lazy `.+?`); the `**` alternative is taken whenever it matches.
   */
  lemma SpanIsFound(text: string, m: BoldMatch)
    requires IsBoldSpan(text, m)
    ensures DelimitedAt(text, m.start, m.mark).Some?
    ensures DelimitedAt(text, m.start, m.mark).value.end <= m.end
    ensures MatchAt(text, m.start).Some?
    ensures m.mark == '*' ==> MatchAt(text, m.start) == DelimitedAt(text, m.start, '*')
  {
    CloseFromFinds(text, m.mark, m.start + 3, m.end - 2);
  }

  /** The leftmost match starting at or after `from`. */
  function FirstMatchFrom(text: string, from: nat): (r: Option<BoldMatch>)
    requires from <= |text|
    decreases |text| - from
    ensures r.Some? ==> from <= r.value.start && MatchAt(text, r.value.start) == r
  {
    var here := MatchAt(text, from);
    if here.Some? then here
    else if from == |text| then None
    else FirstMatchFrom(text, from + 1)
  }

  /** Where the search for the `i`-th match of `ms` began. */
  function SearchStart(from: nat, ms: seq<BoldMatch>, i: nat): nat
    requires i <= |ms|
  {
    if i == 0 then from else ms[i - 1].end
  }

  /** No match starts anywhere in [lo, hi). */
  ghost predicate NoMatchBetween(text: string, lo: nat, hi: nat) {
    forall s: nat :: lo <= s < hi ==> MatchAt(text, s).None?
  }

  /** No match starts at or after `lo`. */
  ghost predicate NoMatchFrom(text: string, lo: nat) {
    forall s: nat :: lo <= s ==> MatchAt(text, s).None?
  }

  /** No match starts at or past the end of the text. */
  lemma NoMatchPastEnd(text: string, s: nat)
    requires |text| <= s
    ensures MatchAt(text, s).None?
  {
    assert !DoubledAt(text, '*', s) && !DoubledAt(text, '_', s);
  }

  /** No match starts at or after the end of the text. */
  lemma NoMatchFromEnd(text: string)
    ensures NoMatchFrom(text, |text|)
  {
    forall s: nat | |text| <= s
      ensures MatchAt(text, s).None?
    {
      NoMatchPastEnd(text, s);
    }
  }

  /** A position without a match extends a match-free range one step to the left. */
  lemma NoMatchBetweenStep(text: string, lo: nat, hi: nat)
    requires MatchAt(text, lo).None? && NoMatchBetween(text, lo + 1, hi)
    ensures NoMatchBetween(text, lo, hi)
  {
    assert forall s: nat :: lo < s < hi ==> MatchAt(text, s).None?;
  }

  /** A position without a match extends a match-free suffix one step to the left. */
  lemma NoMatchFromStep(text: string, lo: nat)
    requires MatchAt(text, lo).None? && NoMatchFrom(text, lo + 1)
    ensures NoMatchFrom(text, lo)
  {
    assert forall s: nat :: lo < s ==> MatchAt(text, s).None?;
  }

  /** The search finds the leftmost match: none starts before it, and none at all when it fails. */
  lemma {:induction false} FirstMatchIsLeftmost(text: string, from: nat)
    requires from <= |text|
    decreases |text| - from
    ensures var r := FirstMatchFrom(text, from);
            && (r.Some? ==> NoMatchBetween(text, from, r.value.start))
            && (r.None? ==> NoMatchFrom(text, from))
  {
    var r := FirstMatchFrom(text, from);
    if MatchAt(text, from).None? {
      if from == |text| {
        NoMatchFromEnd(text);
      } else {
        assert r == FirstMatchFrom(text, from + 1);
        FirstMatchIsLeftmost(text, from + 1);
        if r.Some? {
          NoMatchBetweenStep(text, from, r.value.start);
        } else {
          NoMatchFromStep(text, from);
        }
      }
    }
  }

  /**
   * Kotlin `findAll`: the successive leftmost matches, each search resuming where the previous
   * match ended. Each match starts no earlier than its search did, so the matches come in order
   * without overlapping.
   */
  function FindAll(text: string, from: nat): (ms: seq<BoldMatch>)
    requires from <= |text|
    decreases |text| - from
    ensures forall i :: 0 <= i < |ms| ==> ms[i].start + 5 <= ms[i].end <= |text|
    ensures forall i {:trigger SearchStart(from, ms, i)} :: 0 <= i < |ms| ==> SearchStart(from, ms, i) <= ms[i].start
  {
    match FirstMatchFrom(text, from)
    case None => []
    case Some(m) =>
      assert IsBoldSpan(text, m);
      var rest := FindAll(text, m.end);
      var ms := [m] + rest;
      assert forall i :: 0 < i < |ms| ==> ms[i] == rest[i - 1];
      forall i | 1 < i < |ms|
        ensures SearchStart(from, ms, i) == SearchStart(m.end, rest, i - 1)
      {
        assert ms[i - 1] == rest[i - 2];
      }
      ms
  }

  /**
   * `findAll` restarts the leftmost search where the previous match ended: each match is the
   * first one from where its search began, and the search after the last match finds nothing.
   */
  lemma {:induction false} FindAllIsRepeatedSearch(text: string, from: nat)
    requires from <= |text|
    decreases |text| - from
    ensures var ms := FindAll(text, from);
            forall i {:trigger SearchStart(from, ms, i)} :: 0 <= i < |ms| ==> SearchStart(from, ms, i) <= |text| && FirstMatchFrom(text, SearchStart(from, ms, i)) == Some(ms[i])
    ensures var ms := FindAll(text, from);
            SearchStart(from, ms, |ms|) <= |text| && FirstMatchFrom(text, SearchStart(from, ms, |ms|)).None?
  {
    var ms := FindAll(text, from);
    match FirstMatchFrom(text, from)
    case None =>
      assert ms == [];
    case Some(m) =>
      var rest := FindAll(text, m.end);
      FindAllIsRepeatedSearch(text, m.end);
      assert ms == [m] + rest;
      forall i | 0 < i <= |ms|
        ensures SearchStart(from, ms, i) == SearchStart(m.end, rest, i - 1)
      {
        if i > 1 {
          assert ms[i - 1] == rest[i - 2];
        }
      }
  }

  /** Every match `findAll` returns is a bold span of the text. */
  lemma FindAllSpan(text: string, from: nat, i: nat)
    requires from <= |text| && i < |FindAll(text, from)|
    ensures IsBoldSpan(text, FindAll(text, from)[i])
  {
    var ms := FindAll(text, from);
    FindAllIsRepeatedSearch(text, from);
    assert FirstMatchFrom(text, SearchStart(from, ms, i)) == Some(ms[i]);
  }

  /**
   * `findAll` misses nothing: no match starts between where a search began and the match it
   * found, nor anywhere after the last search began.
   */
  lemma FindAllIsLeftmost(text: string, from: nat)
    requires from <= |text|
    ensures var ms := FindAll(text, from);
            forall i {:trigger SearchStart(from, ms, i)} :: 0 <= i < |ms| ==> NoMatchBetween(text, SearchStart(from, ms, i), ms[i].start)
    ensures var ms := FindAll(text, from); NoMatchFrom(text, SearchStart(from, ms, |ms|))
  {
    var ms := FindAll(text, from);
    FindAllIsRepeatedSearch(text, from);
    forall i | 0 <= i <= |ms|
      ensures var r := FirstMatchFrom(text, SearchStart(from, ms, i));
              && (r.Some? ==> NoMatchBetween(text, SearchStart(from, ms, i), r.value.start))
              && (r.None? ==> NoMatchFrom(text, SearchStart(from, ms, i)))
    {
      FirstMatchIsLeftmost(text, SearchStart(from, ms, i));
    }
  }

  /**
   * `findAll` skips no bold span: none starts between where a search began and the match it
   * found, and every bold span starts before the search that found nothing.
   */
  lemma FindAllMissesNoSpan(text: string, m: BoldMatch)
    requires IsBoldSpan(text, m)
    ensures var ms := FindAll(text, 0);
            && m.start < SearchStart(0, ms, |ms|)
            && forall i {:trigger SearchStart(0, ms, i)} :: 0 <= i < |ms| && SearchStart(0, ms, i) <= m.start ==> ms[i].start <= m.start
  {
    var ms := FindAll(text, 0);
    SpanIsFound(text, m);
    FindAllIsLeftmost(text, 0);
    assert MatchAt(text, m.start).Some?;
  }

  // ---------------------------------------------------------------------------------------------
  // Segmenting
  // ---------------------------------------------------------------------------------------------

  datatype Segment = Plain(text: string) | Bold(text: string)

  /** `ms` are bold spans of `text`, in order and without overlapping. */
  predicate AreSearchMatches(text: string, ms: seq<BoldMatch>) {
    && (forall i {:trigger IsBoldSpan(text, ms[i])} :: 0 <= i < |ms| ==> IsBoldSpan(text, ms[i]))
    && (forall j, i :: 0 <= j < i < |ms| ==> ms[j].end <= ms[i].start)
  }

  /**
   * When every match starts no earlier than where its search began, a search start lies before
   * every later match.
   */
  lemma {:induction false} SearchStartsChain(from: nat, ms: seq<BoldMatch>, j: nat, i: nat)
    requires forall k {:trigger SearchStart(from, ms, k)} :: 0 <= k < |ms| ==> SearchStart(from, ms, k) <= ms[k].start
    requires forall k :: 0 <= k < |ms| ==> ms[k].start <= ms[k].end
    requires j <= i < |ms|
    decreases i - j
    ensures SearchStart(from, ms, j) <= ms[i].start
  {
    assert SearchStart(from, ms, i) <= ms[i].start;
    if j < i {
      SearchStartsChain(from, ms, j, i - 1);
      assert ms[i - 1].start <= ms[i - 1].end == SearchStart(from, ms, i);
    }
  }

  /** The matches of `findAll` start no earlier than `from`, and each ends before the next starts. */
  lemma FindAllOrdered(text: string, from: nat)
    requires from <= |text|
    ensures var ms := FindAll(text, from);
            && (forall i :: 0 <= i < |ms| ==> from <= ms[i].start)
            && (forall j, i :: 0 <= j < i < |ms| ==> ms[j].end <= ms[i].start)
  {
    var ms := FindAll(text, from);
    forall i | 0 <= i < |ms|
      ensures from <= ms[i].start
    {
      SearchStartsChain(from, ms, 0, i);
    }
    forall j, i | 0 <= j < i < |ms|
      ensures ms[j].end <= ms[i].start
    {
      SearchStartsChain(from, ms, j + 1, i);
    }
  }

  /** The matches `findAll` returns are ordered bold spans. */
  lemma FindAllAreSearchMatches(text: string)
    ensures AreSearchMatches(text, FindAll(text, 0))
  {
    var ms := FindAll(text, 0);
    forall i | 0 <= i < |ms|
      ensures IsBoldSpan(text, ms[i])
    {
      FindAllSpan(text, 0, i);
    }
    FindAllOrdered(text, 0);
  }

  /**
   * `segments` splits `text` at the matches `ms`: for each match, the plain text from where its
   * search began up to the match, then the match's inner text in bold; last, the plain text after
   * the final match.
   */
  predicate IsSegmentation(segments: seq<Segment>, ms: seq<BoldMatch>, text: string) {
    && |segments| == 2 * |ms| + 1
    && SegmentPairs(segments, ms, text, |ms|)
    && SearchStart(0, ms, |ms|) <= |text|
    && segments[2 * |ms|] == Plain(text[SearchStart(0, ms, |ms|)..])
  }

  /**
   * The first `n` (plain, bold) pairs of `segments` split the text at the first `n` matches: the
   * plain text from where the search began up to the match, then the match's inner text.
   */
  predicate SegmentPairs(segments: seq<Segment>, ms: seq<BoldMatch>, text: string, n: nat)
    requires n <= |ms| && 2 * n <= |segments|
  {
    forall i {:trigger SearchStart(0, ms, i)} :: 0 <= i < n ==>
      && SearchStart(0, ms, i) <= ms[i].start <= |text|
      && segments[2 * i] == Plain(text[SearchStart(0, ms, i)..ms[i].start])
      && segments[2 * i + 1] == Bold(ms[i].inner)
  }

  /** Appending the pair of match `n` to the first `n` pairs gives the first `n + 1` pairs. */
  lemma SegmentPairsStep(segments: seq<Segment>, ms: seq<BoldMatch>, text: string, n: nat)
    requires n < |ms| && |segments| == 2 * n && SegmentPairs(segments, ms, text, n)
    requires SearchStart(0, ms, n) <= ms[n].start <= |text|
    ensures var next := segments + [Plain(text[SearchStart(0, ms, n)..ms[n].start]), Bold(ms[n].inner)];
            SegmentPairs(next, ms, text, n + 1)
  {
    var next := segments + [Plain(text[SearchStart(0, ms, n)..ms[n].start]), Bold(ms[n].inner)];
    forall i | 0 <= i < n + 1
      ensures && SearchStart(0, ms, i) <= ms[i].start <= |text|
              && next[2 * i] == Plain(text[SearchStart(0, ms, i)..ms[i].start])
              && next[2 * i + 1] == Bold(ms[i].inner)
    {
      if i < n {
        assert next[2 * i] == segments[2 * i] && next[2 * i + 1] == segments[2 * i + 1];
      }
    }
  }

  /** Pairs for all matches followed by the plain rest make a segmentation. */
  lemma SegmentPairsFinish(segments: seq<Segment>, ms: seq<BoldMatch>, text: string)
    requires |segments| == 2 * |ms| && SegmentPairs(segments, ms, text, |ms|)
    requires SearchStart(0, ms, |ms|) <= |text|
    ensures IsSegmentation(segments + [Plain(text[SearchStart(0, ms, |ms|)..])], ms, text)
  {
    var all := segments + [Plain(text[SearchStart(0, ms, |ms|)..])];
    forall i | 0 <= i < |ms|
      ensures && SearchStart(0, ms, i) <= ms[i].start <= |text|
              && all[2 * i] == Plain(text[SearchStart(0, ms, i)..ms[i].start])
              && all[2 * i + 1] == Bold(ms[i].inner)
    {
      assert all[2 * i] == segments[2 * i] && all[2 * i + 1] == segments[2 * i + 1];
    }
    assert SegmentPairs(all, ms, text, |ms|);
  }

  /** The visible text of segments: their texts one after another, styles dropped. */
  function Concat(segments: seq<Segment>): string {
    if segments == [] then "" else Concat(segments[..|segments| - 1]) + segments[|segments| - 1].text
  }

  /** The visible text of the first `k + 1` pairs is that of the first `k` pairs, then pair `k`. */
  lemma ConcatPair(segments: seq<Segment>, k: nat)
    requires 2 * k + 2 <= |segments|
    ensures Concat(segments[..2 * k + 2]) == Concat(segments[..2 * k]) + segments[2 * k].text + segments[2 * k + 1].text
  {
    assert segments[..2 * k + 2][..2 * k + 1] == segments[..2 * k + 1];
    assert segments[..2 * k + 1][..2 * k] == segments[..2 * k];
  }

  /** The positions of the four delimiter characters of every match in `ms`. */
  function Delimiters(ms: seq<BoldMatch>): set<int> {
    if ms == [] then {}
    else
      var m := ms[|ms| - 1];
      Delimiters(ms[..|ms| - 1]) + {m.start, m.start + 1, m.end - 2, m.end - 1}
  }

  /** `Delimiters` holds exactly the two first and two last positions of each match. */
  lemma {:induction false} DelimitersAre(ms: seq<BoldMatch>, k: int)
    ensures k in Delimiters(ms) <==>
      exists i :: 0 <= i < |ms| && (k == ms[i].start || k == ms[i].start + 1 || k == ms[i].end - 2 || k == ms[i].end - 1)
  {
    if ms != [] {
      var front := ms[..|ms| - 1];
      DelimitersAre(front, k);
      if k in Delimiters(front) {
        var i :| 0 <= i < |front| && (k == front[i].start || k == front[i].start + 1 || k == front[i].end - 2 || k == front[i].end - 1);
        assert ms[i] == front[i];
      }
    }
  }

  /** The delimiter characters of match `i` are in `Delimiters`. */
  lemma DelimitersOf(ms: seq<BoldMatch>, i: nat)
    requires i < |ms|
    ensures ms[i].start in Delimiters(ms) && ms[i].start + 1 in Delimiters(ms)
    ensures ms[i].end - 2 in Delimiters(ms) && ms[i].end - 1 in Delimiters(ms)
  {
    DelimitersAre(ms, ms[i].start);
    DelimitersAre(ms, ms[i].start + 1);
    DelimitersAre(ms, ms[i].end - 2);
    DelimitersAre(ms, ms[i].end - 1);
  }

  /** A position outside every match's delimiters is not in `Delimiters`. */
  lemma NotDelimiter(ms: seq<BoldMatch>, k: int)
    requires forall j :: 0 <= j < |ms| ==> ms[j].start + 4 <= ms[j].end
    requires forall j :: 0 <= j < |ms| ==> k < ms[j].start || ms[j].end <= k || ms[j].start + 2 <= k < ms[j].end - 2
    ensures k !in Delimiters(ms)
  {
    DelimitersAre(ms, k);
  }

  /** The characters of `text[lo..hi]` whose positions are not in `ds`, in order. */
  function Undelimited(text: string, ds: set<int>, lo: nat, hi: nat): string
    requires lo <= hi <= |text|
    decreases hi - lo
  {
    if lo == hi then ""
    else Undelimited(text, ds, lo, hi - 1) + (if hi - 1 in ds then "" else [text[hi - 1]])
  }

  /** Removing delimiters from a range is removing them from its two halves. */
  lemma {:induction false} UndelimitedSplit(text: string, ds: set<int>, lo: nat, mid: nat, hi: nat)
    requires lo <= mid <= hi <= |text|
    decreases hi - mid
    ensures Undelimited(text, ds, lo, hi) == Undelimited(text, ds, lo, mid) + Undelimited(text, ds, mid, hi)
  {
    if mid < hi {
      UndelimitedSplit(text, ds, lo, mid, hi - 1);
    }
  }

  /** A range without delimiters is kept as it is. */
  lemma {:induction false} UndelimitedPlain(text: string, ds: set<int>, lo: nat, hi: nat)
    requires lo <= hi <= |text|
    requires forall k :: lo <= k < hi ==> k !in ds
    decreases hi - lo
    ensures Undelimited(text, ds, lo, hi) == text[lo..hi]
  {
    if lo < hi {
      UndelimitedPlain(text, ds, lo, hi - 1);
      assert text[lo..hi] == text[lo..hi - 1] + [text[hi - 1]];
    }
  }

  /** A delimiter at the start of a range is dropped. */
  lemma UndelimitedDropFirst(text: string, ds: set<int>, lo: nat, hi: nat)
    requires lo < hi <= |text| && lo in ds
    ensures Undelimited(text, ds, lo, hi) == Undelimited(text, ds, lo + 1, hi)
  {
    UndelimitedSplit(text, ds, lo, lo + 1, hi);
    assert Undelimited(text, ds, lo, lo + 1) == Undelimited(text, ds, lo, lo) + "";
  }

  /**
   * A range made of a two-character delimiter, inner text without delimiters and a closing
   * delimiter keeps exactly the inner text.
   */
  lemma UndelimitedDelimited(text: string, ds: set<int>, start: nat, end: nat)
    requires start + 4 <= end <= |text|
    requires forall k :: start + 2 <= k < end - 2 ==> k !in ds
    requires start in ds && start + 1 in ds && end - 2 in ds && end - 1 in ds
    ensures Undelimited(text, ds, start, end) == text[start + 2..end - 2]
  {
    UndelimitedDropFirst(text, ds, start, end);
    UndelimitedDropFirst(text, ds, start + 1, end);
    UndelimitedPlain(text, ds, start + 2, end - 2);
  }

  /** Each search of ordered matches begins no later than its match, and all lie within the text. */
  lemma SearchMatchBounds(text: string, ms: seq<BoldMatch>)
    requires AreSearchMatches(text, ms)
    ensures forall i {:trigger SearchStart(0, ms, i)} :: 0 <= i < |ms| ==>
              SearchStart(0, ms, i) <= ms[i].start && ms[i].start + 5 <= ms[i].end <= |text|
    ensures SearchStart(0, ms, |ms|) <= |text|
  {
    forall i | 0 <= i < |ms|
      ensures SearchStart(0, ms, i) <= ms[i].start && ms[i].start + 5 <= ms[i].end <= |text|
    {
      assert IsBoldSpan(text, ms[i]);
      if i > 0 {
        assert ms[i - 1].end <= ms[i].start;
      }
    }
    if ms != [] {
      assert IsBoldSpan(text, ms[|ms| - 1]);
    }
  }

  /** Matches other than `n` lie wholly before the search for `n` began or wholly after `n`. */
  lemma OthersApart(text: string, ms: seq<BoldMatch>, n: nat, j: nat)
    requires AreSearchMatches(text, ms) && n < |ms| && j < |ms| && j != n
    ensures ms[j].end <= SearchStart(0, ms, n) || ms[n].end <= ms[j].start
  {
    if j < n - 1 {
      assert IsBoldSpan(text, ms[n - 1]);
    }
  }

  /**
   * From where the search for match `n` began to the end of that match, removing delimiters
   * leaves the plain text before the match and the match's inner text.
   */
  lemma UndelimitedStep(text: string, ms: seq<BoldMatch>, n: nat)
    requires AreSearchMatches(text, ms) && n < |ms|
    ensures SearchStart(0, ms, n) <= ms[n].start <= ms[n].end <= |text|
    ensures Undelimited(text, Delimiters(ms), SearchStart(0, ms, n), ms[n].end)
         == text[SearchStart(0, ms, n)..ms[n].start] + ms[n].inner
  {
    var m := ms[n];
    var lo := SearchStart(0, ms, n);
    assert IsBoldSpan(text, m);
    assert lo <= m.start by {
      if n > 0 {
        assert ms[n - 1].end <= m.start;
      }
    }
    forall j | 0 <= j < |ms|
      ensures ms[j].start + 4 <= ms[j].end
    {
      assert IsBoldSpan(text, ms[j]);
    }
    forall k | lo <= k < m.start || m.start + 2 <= k < m.end - 2
      ensures k !in Delimiters(ms)
    {
      forall j | 0 <= j < |ms|
        ensures k < ms[j].start || ms[j].end <= k || ms[j].start + 2 <= k < ms[j].end - 2
      {
        if j != n {
          OthersApart(text, ms, n, j);
        }
      }
      NotDelimiter(ms, k);
    }
    DelimitersOf(ms, n);
    UndelimitedDelimited(text, Delimiters(ms), m.start, m.end);
    UndelimitedPlain(text, Delimiters(ms), lo, m.start);
    UndelimitedSplit(text, Delimiters(ms), lo, m.start, m.end);
  }

  /** After the last match no delimiter remains, so the rest of the text is kept as it is. */
  lemma UndelimitedRest(text: string, ms: seq<BoldMatch>)
    requires AreSearchMatches(text, ms) && SearchStart(0, ms, |ms|) <= |text|
    ensures Undelimited(text, Delimiters(ms), SearchStart(0, ms, |ms|), |text|) == text[SearchStart(0, ms, |ms|)..]
  {
    var lo := SearchStart(0, ms, |ms|);
    forall j | 0 <= j < |ms|
      ensures ms[j].start + 4 <= ms[j].end <= lo
    {
      assert IsBoldSpan(text, ms[j]);
      if j < |ms| - 1 {
        assert IsBoldSpan(text, ms[|ms| - 1]);
      }
    }
    forall k | lo <= k < |text|
      ensures k !in Delimiters(ms)
    {
      NotDelimiter(ms, k);
    }
    UndelimitedPlain(text, Delimiters(ms), lo, |text|);
  }

  /** The first `n` (plain, bold) pairs show the text up to the end of match `n - 1`, delimiters removed. */
  lemma {:induction false} SegmentPairsUndelimited(segments: seq<Segment>, ms: seq<BoldMatch>, text: string, n: nat)
    requires AreSearchMatches(text, ms) && IsSegmentation(segments, ms, text) && n <= |ms|
    ensures SearchStart(0, ms, n) <= |text|
    ensures Concat(segments[..2 * n]) == Undelimited(text, Delimiters(ms), 0, SearchStart(0, ms, n))
  {
    if n > 0 {
      var j := n - 1;
      SegmentPairsUndelimited(segments, ms, text, j);
      UndelimitedStep(text, ms, j);
      UndelimitedSplit(text, Delimiters(ms), 0, SearchStart(0, ms, j), ms[j].end);
      ConcatPair(segments, j);
      assert segments[2 * j] == Plain(text[SearchStart(0, ms, j)..ms[j].start]);
      assert SearchStart(0, ms, n) == ms[j].end;
    }
  }

  /**
   * The visible text of a segmentation is the input with the four delimiter characters of every
   * match removed and nothing else changed.
   */
  lemma SegmentationDropsDelimiters(segments: seq<Segment>, ms: seq<BoldMatch>, text: string)
    requires AreSearchMatches(text, ms) && IsSegmentation(segments, ms, text)
    ensures Concat(segments) == Undelimited(text, Delimiters(ms), 0, |text|)
  {
    var n := |ms|;
    SegmentPairsUndelimited(segments, ms, text, n);
    UndelimitedRest(text, ms);
    UndelimitedSplit(text, Delimiters(ms), 0, SearchStart(0, ms, n), |text|);
    assert segments[..|segments| - 1] == segments[..2 * n];
  }

  /**
   * `parseInlineFormatting`: walks the matches of the bold regex left to right, appending the
   * plain text before each match and then its inner text in bold, and finally the plain rest.
   * The visible text is the input without the matches' delimiters.
   */
  method ParseInlineFormatting(text: string) returns (segments: seq<Segment>)
    ensures IsSegmentation(segments, FindAll(text, 0), text)
    ensures Concat(segments) == Undelimited(text, Delimiters(FindAll(text, 0)), 0, |text|)
    ensures FindAll(text, 0) == [] ==> segments == [Plain(text)]
  {
    var matches := FindAll(text, 0);
    FindAllAreSearchMatches(text);
    segments := AppendSegments(text, matches);
    SegmentationDropsDelimiters(segments, matches, text);
  }

  /**
   * The body of `parseInlineFormatting` after `findAll`: the plain text from the current index
   * to each match, its inner text in bold, then the plain rest.
   */
  method AppendSegments(text: string, matches: seq<BoldMatch>) returns (segments: seq<Segment>)
    requires AreSearchMatches(text, matches)
    ensures IsSegmentation(segments, matches, text)
    ensures matches == [] ==> segments == [Plain(text)]
  {
    SearchMatchBounds(text, matches);
    var currentIndex := 0;
    segments := [];
    for i := 0 to |matches|
      invariant |segments| == 2 * i
      invariant currentIndex == SearchStart(0, matches, i) <= |text|
      invariant SegmentPairs(segments, matches, text, i)
    {
      var m := matches[i];
      assert SearchStart(0, matches, i) <= m.start;
      SegmentPairsStep(segments, matches, text, i);
      segments := segments + [Plain(text[currentIndex..m.start]), Bold(m.inner)];
      currentIndex := m.end;
    }
    SegmentPairsFinish(segments, matches, text);
    segments := segments + [Plain(text[currentIndex..])];
  }
}

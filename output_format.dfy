/**
 * `formatOutput`: when the agent's final answer reads "prefix: a, b and c.
 * Would you like to ...?", it is rewritten as a numbered list between the
 * prefix and the question; any other text is returned unchanged.
 *
 * The three regular expressions involved are modelled by hand, with
 * JavaScript's character classes: `.` is any character but a line
 * terminator, `\s` is the ECMAScript white-space and line-terminator set.
 */
module OutputFormat {
  import opened Wrappers
  import opened Text

  // ---------------------------------------------------------------------------
  // Character classes.

  /** The characters `.` does not match. */
  predicate IsLineTerminator(ch: char) {
    ch == '\n' || ch == '\r' || ch == '\U{2028}' || ch == '\U{2029}'
  }

  /** The characters `\s` matches. */
  predicate IsSpace(ch: char) {
    || ch == '\t' || ch == '\n' || ch == '\U{B}' || ch == '\U{C}' || ch == '\r' || ch == ' '
    || ch == '\U{A0}' || ch == '\U{1680}' || ('\U{2000}' <= ch <= '\U{200A}')
    || ch == '\U{2028}' || ch == '\U{2029}' || ch == '\U{202F}' || ch == '\U{205F}'
    || ch == '\U{3000}' || ch == '\U{FEFF}'
  }

  /** `s[i..j]` is all white space. */
  predicate SpaceBetween(s: string, i: nat, j: nat)
    requires i <= j <= |s|
  {
    forall k :: i <= k < j ==> IsSpace(s[k])
  }

  /** `s[i..j]` holds no line terminator. */
  predicate NoBreakBetween(s: string, i: nat, j: nat)
    requires i <= j <= |s|
  {
    forall k :: i <= k < j ==> !IsLineTerminator(s[k])
  }

  /** The end of the longest run of white space starting at `i`: what a greedy `\s*` consumes. */
  function SpanEnd(s: string, i: nat): (j: nat)
    requires i <= |s|
    ensures i <= j <= |s|
    ensures SpaceBetween(s, i, j)
    ensures j == |s| || !IsSpace(s[j])
    decreases |s| - i
  {
    if i == |s| || !IsSpace(s[i]) then i else SpanEnd(s, i + 1)
  }

  /** No run of white space starting at `i` goes past the greedy one. */
  lemma SpanEndLongest(s: string, i: nat, j: nat)
    requires i <= j <= |s| && SpaceBetween(s, i, j)
    ensures j <= SpanEnd(s, i)
  {
    var e := SpanEnd(s, i);
    assert e < |s| ==> !IsSpace(s[e]);
  }

  // ---------------------------------------------------------------------------
  // The pattern /^(.+?):\s+(.*?)\.\s+(Would you like to .+\?)$/

  const Lead := "Would you like to "

  /** `(Would you like to .+\?)$`: the text from `b` to the end. */
  predicate QuestionAt(s: string, b: nat)
    requires b <= |s|
  {
    && b + |Lead| + 2 <= |s|
    && s[b..b + |Lead|] == Lead
    && s[|s| - 1] == '?'
    && NoBreakBetween(s, b, |s|)
  }

  /**
   * The cut points of one way the pattern can match `s`: the prefix is
   * `s[..colon]`, white space runs to `items`, the items are
   * `s[items..dot]`, white space runs from after the dot to `question`, and
   * the question is `s[question..]`.
   */
  datatype Cuts = Cuts(colon: nat, items: nat, dot: nat, question: nat)

  predicate Parse(s: string, m: Cuts) {
    && 0 < m.colon && m.colon + 1 < m.items <= m.dot && m.dot + 1 < m.question <= |s|
    && NoBreakBetween(s, 0, m.colon) && s[m.colon] == ':'
    && SpaceBetween(s, m.colon + 1, m.items)
    && NoBreakBetween(s, m.items, m.dot) && s[m.dot] == '.'
    && SpaceBetween(s, m.dot + 1, m.question)
    && QuestionAt(s, m.question)
  }

  /**
   * The order in which the backtracking matcher tries the ways to match:
   * the lazy prefix shortest first, the greedy `\s+` longest first, the lazy
   * items shortest first, the second greedy `\s+` longest first.
   */
  predicate TriedBefore(m: Cuts, n: Cuts) {
    || m.colon < n.colon
    || (m.colon == n.colon && m.items > n.items)
    || (m.colon == n.colon && m.items == n.items && m.dot < n.dot)
    || (m.colon == n.colon && m.items == n.items && m.dot == n.dot && m.question > n.question)
  }

  /** A dot at `d` followed by white space and the question up to the end. */
  predicate TailAt(s: string, d: nat)
    requires d < |s|
  {
    s[d] == '.' && SpanEnd(s, d + 1) > d + 1 && QuestionAt(s, SpanEnd(s, d + 1))
  }

  /** The first dot at `d` or later that ends the items, with no line break before it. */
  function FirstDot(s: string, a: nat, d: nat): (r: Option<nat>)
    requires a <= d <= |s| && NoBreakBetween(s, a, d)
    ensures r.Some? ==> d <= r.value < |s| && NoBreakBetween(s, a, r.value) && TailAt(s, r.value)
    ensures r.Some? ==> forall e :: d <= e < r.value ==> !TailAt(s, e)
    ensures r.None? ==> forall e :: d <= e < |s| && NoBreakBetween(s, a, e) ==> !TailAt(s, e)
    decreases |s| - d
  {
    if d == |s| || IsLineTerminator(s[d]) then None
    else if TailAt(s, d) then Some(d)
    else FirstDot(s, a, d + 1)
  }

  /** The first match whose colon is at `c` or later. */
  function MatchFrom(s: string, c: nat): (r: Option<Cuts>)
    requires 1 <= c <= |s| && NoBreakBetween(s, 0, c - 1)
    ensures r.Some? ==> InOrder(s, r.value)
    decreases |s| - c
  {
    if c == |s| || IsLineTerminator(s[c - 1]) then None
    else if s[c] == ':' && SpanEnd(s, c + 1) > c + 1 && FirstDot(s, SpanEnd(s, c + 1), SpanEnd(s, c + 1)).Some? then
      var a := SpanEnd(s, c + 1);
      var d := FirstDot(s, a, a).value;
      Some(Cuts(c, a, d, SpanEnd(s, d + 1)))
    else MatchFrom(s, c + 1)
  }

  predicate InOrder(s: string, m: Cuts) {
    0 < m.colon < m.items <= m.dot < m.question <= |s|
  }

  /** `s.match(pattern)`: the cut points of the match the matcher returns, if any. */
  function MatchCuts(s: string): (r: Option<Cuts>)
    ensures r.Some? ==> InOrder(s, r.value)
  {
    if s == [] then None else MatchFrom(s, 1)
  }

  /** Every way of matching, once its colon is fixed, can be normalised to the greedy white space. */
  lemma ParseNormal(s: string, m: Cuts)
    requires Parse(s, m)
    ensures var a := SpanEnd(s, m.colon + 1);
      && m.items <= a <= m.dot
      && NoBreakBetween(s, a, m.dot)
      && TailAt(s, m.dot)
      && m.question == SpanEnd(s, m.dot + 1)
  {
    SpanEndLongest(s, m.colon + 1, m.items);
    var a := SpanEnd(s, m.colon + 1);
    assert m.dot < a ==> IsSpace(s[m.dot]);
    SpanEndLongest(s, m.dot + 1, m.question);
    var b := SpanEnd(s, m.dot + 1);
    assert s[m.question] == Lead[0];
    assert m.question < b ==> IsSpace(s[m.question]);
  }

  /** The greedy match at a colon is tried before every other match at that colon or after it. */
  lemma GreedyTriedFirst(s: string, m: Cuts, n: Cuts)
    requires Parse(s, m) && Parse(s, n) && m.colon <= n.colon
    requires m.items == SpanEnd(s, m.colon + 1) && m.question == SpanEnd(s, m.dot + 1)
    requires FirstDot(s, m.items, m.items) == Some(m.dot)
    ensures n == m || TriedBefore(m, n)
  {
    if n.colon == m.colon {
      ParseNormal(s, n);
    }
  }

  /** What `MatchFrom` finds is a match, tried before every other match with a colon at `c` or later. */
  lemma {:induction false} MatchFromFirst(s: string, c: nat)
    requires 1 <= c <= |s| && NoBreakBetween(s, 0, c - 1)
    ensures var r := MatchFrom(s, c);
      && (r.Some? ==> Parse(s, r.value))
      && (r.Some? ==> forall n :: Parse(s, n) && c <= n.colon ==> n == r.value || TriedBefore(r.value, n))
      && (r.None? ==> forall n :: Parse(s, n) ==> n.colon < c)
    decreases |s| - c
  {
    var r := MatchFrom(s, c);
    if c == |s| || IsLineTerminator(s[c - 1]) {
      forall n | Parse(s, n) ensures n.colon < c {
        assert NoBreakBetween(s, 0, n.colon);
      }
    } else if s[c] == ':' && SpanEnd(s, c + 1) > c + 1 && FirstDot(s, SpanEnd(s, c + 1), SpanEnd(s, c + 1)).Some? {
      var a := SpanEnd(s, c + 1);
      var d := FirstDot(s, a, a).value;
      var m := Cuts(c, a, d, SpanEnd(s, d + 1));
      assert r == Some(m);
      assert Parse(s, m);
      forall n | Parse(s, n) && c <= n.colon ensures n == m || TriedBefore(m, n) {
        GreedyTriedFirst(s, m, n);
      }
    } else {
      MatchFromFirst(s, c + 1);
      NoMatchAtColon(s, c);
    }
  }

  /** When the greedy attempt at `c` fails, no match has its colon at `c`. */
  lemma NoMatchAtColon(s: string, c: nat)
    requires c < |s|
    requires !(s[c] == ':' && SpanEnd(s, c + 1) > c + 1 && FirstDot(s, SpanEnd(s, c + 1), SpanEnd(s, c + 1)).Some?)
    ensures forall n :: Parse(s, n) ==> n.colon != c
  {
    forall n | Parse(s, n) && n.colon == c ensures false {
      ParseNormal(s, n);
    }
  }

  /**
   * `MatchCuts` finds a match exactly when the pattern matches, and it is
   * the match the backtracking matcher tries first.
   */
  lemma MatchCutsFirst(s: string)
    ensures MatchCuts(s).None? <==> forall n :: !Parse(s, n)
    ensures MatchCuts(s).Some? ==> Parse(s, MatchCuts(s).value)
    ensures MatchCuts(s).Some? ==> forall n :: Parse(s, n) ==> n == MatchCuts(s).value || TriedBefore(MatchCuts(s).value, n)
  {
    if s != [] {
      MatchFromFirst(s, 1);
    }
  }

  // ---------------------------------------------------------------------------
  // tasksAndSuffix.replace(/\.\s*$/, "")

  /** A dot at `p` with only white space after it. */
  predicate DotTail(t: string, p: nat)
    requires p < |t|
  {
    t[p] == '.' && SpaceBetween(t, p + 1, |t|)
  }

  /** Where the trailing white space of `t[..e]` begins. */
  function TrailStart(t: string, e: nat): (r: nat)
    requires e <= |t|
    ensures r <= e && SpaceBetween(t, r, e)
    ensures r == 0 || !IsSpace(t[r - 1])
    decreases e
  {
    if e == 0 || !IsSpace(t[e - 1]) then e else TrailStart(t, e - 1)
  }

  /**
   * Removes a final dot and the white space after it; the only dot it can
   * remove is one followed by white space alone, and text without one is
   * kept as it is.
   */
  function StripFinalDot(t: string): (r: string)
    ensures forall p :: 0 <= p < |t| && DotTail(t, p) ==> r == t[..p]
    ensures (forall p :: 0 <= p < |t| ==> !DotTail(t, p)) ==> r == t
  {
    var e := TrailStart(t, |t|);
    if e > 0 && t[e - 1] == '.' then
      assert DotTail(t, e - 1);
      DotTailUnique(t, e - 1);
      t[..e - 1]
    else
      assert forall p :: 0 <= p < |t| ==> !DotTail(t, p);
      t
  }

  lemma DotTailUnique(t: string, p: nat)
    requires p < |t| && DotTail(t, p)
    ensures forall p' :: 0 <= p' < |t| && DotTail(t, p') ==> p' == p
  {
    assert !IsSpace('.');
    forall p' | 0 <= p' < |t| && DotTail(t, p') ensures p' == p {
    }
  }

  // ---------------------------------------------------------------------------
  // tasksText.split(/\s*,\s+(?:and\s+)?|\s+and\s+/)

  predicate AndAt(s: string, i: nat) {
    i + 3 <= |s| && s[i] == 'a' && s[i + 1] == 'n' && s[i + 2] == 'd'
  }

  /**
   * Where the separator that starts at `q` ends, if one does. The first
   * alternative is tried first: white space, a comma, white space, and then
   * "and" with white space when it follows; otherwise white space, "and",
   * white space. Every `\s` run is as long as it can be.
   */
  function SeparatorEnd(s: string, q: nat): (r: Option<nat>)
    requires q <= |s|
    ensures r.Some? ==> q < r.value <= |s|
  {
    var w := SpanEnd(s, q);
    if w < |s| && s[w] == ',' && SpanEnd(s, w + 1) > w + 1 then
      var m := SpanEnd(s, w + 1);
      if AndAt(s, m) && SpanEnd(s, m + 3) > m + 3 then Some(SpanEnd(s, m + 3)) else Some(m)
    else if w > q && AndAt(s, w) && SpanEnd(s, w + 3) > w + 3 then Some(SpanEnd(s, w + 3))
    else None
  }

  /** A comma followed by white space always starts a separator. */
  lemma CommaStartsSeparator(s: string, i: nat)
    requires i + 1 < |s| && s[i] == ',' && IsSpace(s[i + 1])
    ensures SeparatorEnd(s, i).Some?
  {
    assert SpanEnd(s, i) == i;
    assert SpanEnd(s, i + 1) > i + 1;
  }

  /** White space, "and", white space always starts a separator. */
  lemma AndStartsSeparator(s: string, i: nat)
    requires i + 4 < |s| && IsSpace(s[i]) && AndAt(s, i + 1) && IsSpace(s[i + 4])
    ensures SeparatorEnd(s, i).Some?
  {
    assert SpanEnd(s, i + 1) == i + 1;
    assert SpanEnd(s, i) == i + 1;
    assert SpanEnd(s, i + 4) > i + 4;
  }

  /** A piece that holds neither ", " nor " and " (with any white space for the blanks). */
  predicate Unseparated(t: string) {
    && (forall i :: 0 <= i < |t| - 1 ==> !(t[i] == ',' && IsSpace(t[i + 1])))
    && (forall i :: 0 <= i < |t| - 4 ==> !(IsSpace(t[i]) && AndAt(t, i + 1) && IsSpace(t[i + 4])))
  }

  /** No separator starts in `s[p..q]`. */
  predicate NoSeparatorIn(s: string, p: nat, q: nat)
    requires p <= q <= |s|
  {
    forall j :: p <= j < q ==> SeparatorEnd(s, j).None?
  }

  /** A piece in which no separator starts holds neither ", " nor " and ". */
  lemma PieceUnseparated(s: string, p: nat, q: nat)
    requires p <= q <= |s| && NoSeparatorIn(s, p, q)
    ensures Unseparated(s[p..q])
  {
    var t := s[p..q];
    forall i | 0 <= i < |t| - 1 ensures !(t[i] == ',' && IsSpace(t[i + 1])) {
      if t[i] == ',' && IsSpace(t[i + 1]) {
        CommaStartsSeparator(s, p + i);
      }
    }
    forall i | 0 <= i < |t| - 4 ensures !(IsSpace(t[i]) && AndAt(t, i + 1) && IsSpace(t[i + 4])) {
      if IsSpace(t[i]) && AndAt(t, i + 1) && IsSpace(t[i + 4]) {
        assert AndAt(s, p + i + 1);
        AndStartsSeparator(s, p + i);
      }
    }
  }

  /**
   * The split loop: the current piece began at `p` and no separator starts
   * in `s[p..q]`.
   */
  function SplitFrom(s: string, p: nat, q: nat): (pieces: seq<string>)
    requires p <= q <= |s| && NoSeparatorIn(s, p, q)
    ensures |pieces| >= 1
    ensures forall k :: 0 <= k < |pieces| ==> Unseparated(pieces[k])
    decreases |s| - q, |s| - p
  {
    if q == |s| then
      PieceUnseparated(s, p, q);
      assert s[p..] == s[p..q];
      [s[p..]]
    else
      match SeparatorEnd(s, q)
      case None => SplitFrom(s, p, q + 1)
      case Some(e) =>
        PieceUnseparated(s, p, q);
        [s[p..q]] + SplitFrom(s, e, e)
  }

  /** The separators the split loop cuts out, in order. */
  function SeparatorsFrom(s: string, p: nat, q: nat): seq<string>
    requires p <= q <= |s| && NoSeparatorIn(s, p, q)
    decreases |s| - q, |s| - p
  {
    if q == |s| then []
    else
      match SeparatorEnd(s, q)
      case None => SeparatorsFrom(s, p, q + 1)
      case Some(e) => [s[q..e]] + SeparatorsFrom(s, e, e)
  }

  /** `pieces[0] + seps[0] + pieces[1] + ... + pieces[n]` */
  function Interleave(pieces: seq<string>, seps: seq<string>): string
    requires |pieces| == |seps| + 1
    decreases |seps|
  {
    if seps == [] then pieces[0] else pieces[0] + seps[0] + Interleave(pieces[1..], seps[1..])
  }

  /** The pieces and the separators between them make up the text again. */
  lemma {:induction false} SplitReassembles(s: string, p: nat, q: nat)
    requires p <= q <= |s| && NoSeparatorIn(s, p, q)
    ensures |SplitFrom(s, p, q)| == |SeparatorsFrom(s, p, q)| + 1
    ensures Interleave(SplitFrom(s, p, q), SeparatorsFrom(s, p, q)) == s[p..]
    decreases |s| - q, |s| - p
  {
    if q < |s| {
      match SeparatorEnd(s, q)
      case None =>
        SplitReassembles(s, p, q + 1);
      case Some(e) =>
        SplitReassembles(s, e, e);
        var pieces, seps := SplitFrom(s, e, e), SeparatorsFrom(s, e, e);
        assert SplitFrom(s, p, q) == [s[p..q]] + pieces;
        assert SeparatorsFrom(s, p, q) == [s[q..e]] + seps;
        assert Interleave([s[p..q]] + pieces, [s[q..e]] + seps) == s[p..q] + s[q..e] + Interleave(pieces, seps);
        assert s[p..] == s[p..q] + s[q..e] + s[e..];
    }
  }

  /** `text.split(separator)` */
  function Split(text: string): (pieces: seq<string>)
    ensures |pieces| >= 1
    ensures forall k :: 0 <= k < |pieces| ==> Unseparated(pieces[k])
  {
    SplitFrom(text, 0, 0)
  }

  /** The separators `Split` removes: between the pieces, they give the text back. */
  lemma SplitInverse(text: string)
    ensures |Split(text)| == |SeparatorsFrom(text, 0, 0)| + 1
    ensures Interleave(Split(text), SeparatorsFrom(text, 0, 0)) == text
  {
    SplitReassembles(text, 0, 0);
  }

  /** Text with no separator anywhere is one piece. */
  lemma {:induction false} SplitNothing(s: string, p: nat, q: nat)
    requires p <= q <= |s| && NoSeparatorIn(s, p, |s|)
    ensures SplitFrom(s, p, q) == [s[p..]]
    decreases |s| - q
  {
    if q < |s| {
      SplitNothing(s, p, q + 1);
    }
  }

  // ---------------------------------------------------------------------------
  // tasksArray.map((task, i) => `${i + 1}. ${task}`).join(",\n")

  /** Each task numbered, counting from `first`. */
  function Numbered(tasks: seq<string>, first: nat): (lines: seq<string>)
    ensures |lines| == |tasks|
    ensures forall i :: 0 <= i < |tasks| ==> lines[i] == NatToString(first + i) + ". " + tasks[i]
    decreases |tasks|
  {
    if tasks == [] then [] else [NatToString(first) + ". " + tasks[0]] + Numbered(tasks[1..], first + 1)
  }

  /** `lines.join(sep)` */
  function Join(lines: seq<string>, sep: string): string
    decreases |lines|
  {
    if lines == [] then "" else if |lines| == 1 then lines[0] else lines[0] + sep + Join(lines[1..], sep)
  }

  // ---------------------------------------------------------------------------
  // Reading the list back: lines end at "\n".

  predicate NoNewline(t: string) {
    forall i :: 0 <= i < |t| ==> t[i] != '\n'
  }

  /** `text.split("\n")` */
  function Lines(text: string): (r: seq<string>)
    ensures |r| >= 1
    decreases |text|
  {
    if text == [] then [""]
    else if text[0] == '\n' then [""] + Lines(text[1..])
    else
      var rest := Lines(text[1..]);
      [[text[0]] + rest[0]] + rest[1..]
  }

  lemma {:induction false} LinesOfPlainText(t: string)
    requires NoNewline(t)
    ensures Lines(t) == [t]
    decreases |t|
  {
    if t != [] {
      LinesOfPlainText(t[1..]);
      assert [t[0]] + t[1..] == t;
    }
  }

  lemma {:induction false} LinesAppend(t: string, rest: string)
    requires NoNewline(t)
    ensures Lines(t + "\n" + rest) == [t] + Lines(rest)
    decreases |t|
  {
    if t == [] {
      assert t + "\n" + rest == "\n" + rest;
      assert ("\n" + rest)[1..] == rest;
    } else {
      assert (t + "\n" + rest)[1..] == t[1..] + "\n" + rest;
      LinesAppend(t[1..], rest);
      assert [t[0]] + t[1..] == t;
    }
  }

  /** Each line but the last, with the "," the join puts before the newline. */
  function WithCommas(lines: seq<string>): (r: seq<string>)
    ensures |r| == |lines|
    decreases |lines|
  {
    if |lines| <= 1 then lines else [lines[0] + ","] + WithCommas(lines[1..])
  }

  /**
   * The numbered list splits back into its lines at the newlines the join
   * inserts, when no line holds a newline of its own.
   */
  lemma {:induction false} JoinedLinesSplitBack(lines: seq<string>)
    requires lines != []
    requires forall i :: 0 <= i < |lines| ==> NoNewline(lines[i])
    ensures Lines(Join(lines, ",\n")) == WithCommas(lines)
    decreases |lines|
  {
    if |lines| == 1 {
      LinesOfPlainText(lines[0]);
    } else {
      var rest := Join(lines[1..], ",\n");
      assert Join(lines, ",\n") == (lines[0] + ",") + "\n" + rest;
      assert NoNewline(lines[0] + ",");
      LinesAppend(lines[0] + ",", rest);
      JoinedLinesSplitBack(lines[1..]);
    }
  }

  // ---------------------------------------------------------------------------
  // formatOutput

  /** The numbered block the function puts between the prefix and the question. */
  function Enumerate(itemsText: string): (r: string)
    ensures "1. " + Split(StripFinalDot(itemsText))[0] <= r
  {
    var lines := Numbered(Split(StripFinalDot(itemsText)), 1);
    assert NatToString(1) == "1";
    assert lines[0] <= Join(lines, ",\n") by {
      if |lines| > 1 {
        assert Join(lines, ",\n") == lines[0] + (",\n" + Join(lines[1..], ",\n"));
      }
    }
    Join(lines, ",\n")
  }

  /**
   * `formatOutput(text)`: the prefix, ":", a blank line, the numbered tasks,
   * ". ", a blank line and the question, cut where the matcher cuts; any text
   * the pattern does not match unchanged.
   */
  function FormatOutput(text: string): (r: string)
    ensures (forall n :: !Parse(text, n)) ==> r == text
    ensures forall m :: Parse(text, m) && (forall n :: Parse(text, n) ==> n == m || TriedBefore(m, n)) ==>
      r == text[..m.colon] + ":\n\n" + Enumerate(text[m.items..m.dot]) + ". \n\n" + text[m.question..]
  {
    MatchCutsFirst(text);
    match MatchCuts(text)
    case None => text
    case Some(m) =>
      FirstMatchIsUnique(text, m);
      var prefix := text[..m.colon];
      var tasksAndSuffix := text[m.items..m.dot];
      var finalQuestion := text[m.question..];
      prefix + ":\n\n" + Enumerate(tasksAndSuffix) + ". \n\n" + finalQuestion
  }

  /** At most one match is tried before all the others. */
  lemma FirstMatchIsUnique(text: string, first: Cuts)
    requires Parse(text, first) && forall n :: Parse(text, n) ==> n == first || TriedBefore(first, n)
    ensures forall m :: Parse(text, m) && (forall n :: Parse(text, n) ==> n == m || TriedBefore(m, n)) ==> m == first
  {
    forall m | Parse(text, m) && (forall n :: Parse(text, n) ==> n == m || TriedBefore(m, n))
      ensures m == first
    {
      assert m == first || TriedBefore(m, first);
      assert m == first || TriedBefore(first, m);
    }
  }

  /** The items of a match hold no line break, so neither does any task. */
  lemma ItemsHaveNoNewline(s: string, m: Cuts)
    requires Parse(s, m)
    ensures NoNewline(s[m.items..m.dot])
  {
    var t := s[m.items..m.dot];
    forall i | 0 <= i < |t| ensures t[i] != '\n' {
      assert t[i] == s[m.items + i];
    }
  }

  lemma {:induction false} SplitKeepsNoNewline(s: string, p: nat, q: nat)
    requires p <= q <= |s| && NoSeparatorIn(s, p, q) && NoNewline(s)
    ensures forall k :: 0 <= k < |SplitFrom(s, p, q)| ==> NoNewline(SplitFrom(s, p, q)[k])
    decreases |s| - q, |s| - p
  {
    if q < |s| {
      match SeparatorEnd(s, q)
      case None =>
        SplitKeepsNoNewline(s, p, q + 1);
      case Some(e) =>
        SplitKeepsNoNewline(s, e, e);
        var piece := s[p..q];
        assert forall i :: 0 <= i < |piece| ==> piece[i] == s[p + i];
    } else {
      var piece := s[p..];
      assert forall i :: 0 <= i < |piece| ==> piece[i] == s[p + i];
    }
  }

  lemma StripKeepsNoNewline(t: string)
    requires NoNewline(t)
    ensures NoNewline(StripFinalDot(t))
  {
    var r := StripFinalDot(t);
    if r != t {
      var e := TrailStart(t, |t|);
      assert r == t[..e - 1];
      assert forall i :: 0 <= i < |r| ==> r[i] == t[i];
    }
  }

  /**
   * Reading the formatted list back: between the blank lines, the output
   * has one line per task, "k. task" for the k-th piece of the split.
   */
  lemma FormattedTasksReadBack(text: string)
    requires MatchCuts(text).Some?
    ensures var m := MatchCuts(text).value;
      var tasks := Split(StripFinalDot(text[m.items..m.dot]));
      Lines(Enumerate(text[m.items..m.dot])) == WithCommas(Numbered(tasks, 1))
  {
    MatchCutsFirst(text);
    var m := MatchCuts(text).value;
    var items := text[m.items..m.dot];
    ItemsHaveNoNewline(text, m);
    StripKeepsNoNewline(items);
    var stripped := StripFinalDot(items);
    SplitKeepsNoNewline(stripped, 0, 0);
    var tasks := Split(stripped);
    var lines := Numbered(tasks, 1);
    forall i | 0 <= i < |lines| ensures NoNewline(lines[i]) {
      var num := NatToString(1 + i);
      assert lines[i] == num + ". " + tasks[i];
      assert NoNewline(tasks[i]);
      assert forall k :: 0 <= k < |num| ==> IsDigit(num[k]);
    }
    JoinedLinesSplitBack(lines);
  }

  /**
   * Text that never says "Would you like to " (an answer ending in another
   * question, say) is returned unchanged, however list-like it is.
   */
  lemma WithoutQuestionUnchanged(text: string)
    requires forall b: nat :: !LeadAt(text, b)
    ensures FormatOutput(text) == text
  {
    MatchCutsFirst(text);
    if MatchCuts(text).Some? {
      var m := MatchCuts(text).value;
      assert LeadAt(text, m.question);
    }
  }

  /** The words "Would you like to " start at `b`. */
  predicate LeadAt(text: string, b: nat) {
    b + |Lead| <= |text| && text[b..b + |Lead|] == Lead
  }
}

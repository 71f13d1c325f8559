/** A hand-written recognizer for the one shape of Go regular expression the
  * chat plugins compile:
  *
  *     (?mi)^<keyword>\s*(?P<RELEASE><word1>|...|<wordN>|v[0-9]+\.[0-9]+\.[0-9]+\S*)\s*$
  *
  * `FirstMatch` follows what `FindAllStringSubmatch(s, -1)[0]` reports: the
  * leftmost match under Go's leftmost-first (backtracking-priority) semantics,
  * with `^` holding at the start of the text or after a '\n', and `$` at the end
  * of the text or before a '\n' (the `m` flag). `Accepts` is the same language
  * stated declaratively for one line: the keyword, then a remainder that, once
  * `\s` is stripped from both ends, is a single valid argument.
  * `FirstMatchCharacterized` proves the two agree on every line without '\n'. */
module Pattern {
  import opened Wrappers

  /** Go's `\s`: the class [\t\n\f\r ]. */
  predicate IsSpace(c: char) {
    c == '\t' || c == '\n' || c == '\U{C}' || c == '\r' || c == ' '
  }

  /** Go's `\S`. */
  predicate IsNonSpace(c: char) {
    !IsSpace(c)
  }

  /** The class [0-9]. */
  predicate IsDigit(c: char) {
    '0' <= c <= '9'
  }

  /** Under the `i` flag the text character `c` matches the pattern literal `p`:
    * equal, the other ASCII case, or one of the two non-ASCII characters whose
    * simple case folding reaches an ASCII letter (KELVIN SIGN for k, LONG S for s). */
  predicate FoldEq(c: char, p: char) {
    || c == p
    || ('a' <= p <= 'z' && c as int == p as int - 32)
    || ('A' <= p <= 'Z' && c as int == p as int + 32)
    || ((p == 'k' || p == 'K') && c == '\U{212A}')
    || ((p == 's' || p == 'S') && c == '\U{17F}')
  }

  /** The literal `w` matches `s` at position `i`, case-insensitively. */
  predicate FoldAt(s: string, i: nat, w: string) {
    i + |w| <= |s| && forall k :: 0 <= k < |w| ==> FoldEq(s[i + k], w[k])
  }

  /** The pattern `(?mi)^<keyword>\s*(?P<RELEASE><words>|v[0-9]+\.[0-9]+\.[0-9]+\S*)\s*$`,
    * its word alternatives in the order they are written. */
  datatype Pattern = Pattern(keyword: string, words: seq<string>)

  /** What the recognizer needs of the alternatives: each word is non-empty and free of `\s`. */
  predicate WellFormed(p: Pattern) {
    WordsWellFormed(p.words)
  }

  predicate WordsWellFormed(words: seq<string>) {
    forall k :: 0 <= k < |words| ==> IsWord(words[k])
  }

  predicate IsWord(w: string) {
    |w| > 0 && forall j :: 0 <= j < |w| ==> IsNonSpace(w[j])
  }

  /** One submatch: the whole match is s[start..end], the RELEASE group s[capStart..capEnd]. */
  datatype Match = Match(start: nat, capStart: nat, capEnd: nat, end: nat)

  predicate Within(s: string, m: Match) {
    m.start <= m.capStart <= m.capEnd <= m.end <= |s|
  }

  predicate AtLineStart(s: string, k: nat)
    requires k <= |s|
  {
    k == 0 || s[k - 1] == '\n'
  }

  predicate AtLineEnd(s: string, k: nat)
    requires k <= |s|
  {
    k == |s| || s[k] == '\n'
  }

  /** The end of the longest run of characters of a class starting at `i`: a greedy `C*`. */
  function Span(s: string, i: nat, inClass: char -> bool): (r: nat)
    requires i <= |s|
    ensures i <= r <= |s|
    ensures forall k {:trigger inClass(s[k])} :: i <= k < r ==> inClass(s[k])
    ensures r == |s| || !inClass(s[r])
    decreases |s| - i
  {
    if i < |s| && inClass(s[i]) then Span(s, i + 1, inClass) else i
  }

  /** A greedy trailing `\s*` followed by `$`: the run s[t..e] is the longest the
    * star can take; it gives characters back until `$` holds, so the match ends at
    * the last line end in [t, e]. */
  function LineEndBack(s: string, t: nat, e: nat): (r: Option<nat>)
    requires t <= e <= |s|
    ensures r.Some? ==> t <= r.value <= e && AtLineEnd(s, r.value)
    ensures r.Some? ==> forall k :: r.value < k <= e ==> !AtLineEnd(s, k)
    ensures r.None? ==> forall k :: t <= k <= e ==> !AtLineEnd(s, k)
    decreases e
  {
    if AtLineEnd(s, e) then Some(e) else if e == t then None else LineEndBack(s, t, e - 1)
  }

  /** The tail `\s*$` after an argument that ends at `t`. */
  function Finish(s: string, i: nat, a: nat, t: nat): (r: Option<Match>)
    requires i <= a <= t <= |s|
    ensures r.Some? ==> r.value.start == i && r.value.capStart == a && r.value.capEnd == t && Within(s, r.value)
  {
    match LineEndBack(s, t, Span(s, t, IsSpace))
    case None => None
    case Some(j) => Some(Match(i, a, t, j))
  }

  /** The alternative `v[0-9]+\.[0-9]+\.[0-9]+\S*` at position `a`: where it ends.
    * Only the longest digit runs can be followed by '.', and only the longest
    * `\S*` can be followed by `\s*$`, so no other split ever matches. */
  function VersionEnd(s: string, a: nat): (r: Option<nat>)
    requires a <= |s|
    ensures r.Some? ==> a < r.value <= |s|
  {
    if a < |s| && FoldEq(s[a], 'v') then
      var d1 := Span(s, a + 1, IsDigit);
      if d1 > a + 1 && d1 < |s| && s[d1] == '.' then
        var d2 := Span(s, d1 + 1, IsDigit);
        if d2 > d1 + 1 && d2 < |s| && s[d2] == '.' then
          var d3 := Span(s, d2 + 1, IsDigit);
          if d3 > d2 + 1 then Some(Span(s, d3, IsNonSpace)) else None
        else None
      else None
    else None
  }

  /** The RELEASE alternation at position `a`, tried in the order written, each
    * followed by the tail `\s*$`; the first alternative that completes wins. */
  function TryAlternatives(s: string, i: nat, a: nat, words: seq<string>): (r: Option<Match>)
    requires i <= a <= |s|
    ensures r.Some? ==> r.value.start == i && r.value.capStart == a && Within(s, r.value)
    decreases |words|
  {
    if words == [] then
      match VersionEnd(s, a)
      case None => None
      case Some(t) => Finish(s, i, a, t)
    else if FoldAt(s, a, words[0]) && Finish(s, i, a, a + |words[0]|).Some? then
      Finish(s, i, a, a + |words[0]|)
    else
      TryAlternatives(s, i, a, words[1..])
  }

  /** The whole pattern anchored at position `i`. No alternative begins with a `\s`
    * character, so only the longest run of the leading `\s*` can be followed by one. */
  function MatchAt(p: Pattern, s: string, i: nat): (r: Option<Match>)
    requires i <= |s|
    ensures r.Some? ==> r.value.start == i && Within(s, r.value)
  {
    if FoldAt(s, i, p.keyword) then TryAlternatives(s, i, Span(s, i + |p.keyword|, IsSpace), p.words)
    else None
  }

  function FirstMatchFrom(p: Pattern, s: string, i: nat): (r: Option<Match>)
    requires i <= |s|
    ensures r.Some? ==> i <= r.value.start && Within(s, r.value)
    decreases |s| - i
  {
    if AtLineStart(s, i) && MatchAt(p, s, i).Some? then MatchAt(p, s, i)
    else if i == |s| then None
    else FirstMatchFrom(p, s, i + 1)
  }

  /** `p.FindAllStringSubmatch(s, -1)`: None when Go returns nil, otherwise its first element. */
  function FirstMatch(p: Pattern, s: string): (r: Option<Match>)
    ensures r.Some? ==> Within(s, r.value)
  {
    FirstMatchFrom(p, s, 0)
  }

  // ---------------------------------------------------------------------------
  // The declarative reading of the same pattern, for one line.

  /** The end of the text once trailing `\s` is dropped, not going below `lo`. */
  function StripEnd(s: string, lo: nat, hi: nat): (b: nat)
    requires lo <= hi <= |s|
    ensures lo <= b <= hi
    ensures forall k {:trigger IsSpace(s[k])} :: b <= k < hi ==> IsSpace(s[k])
    ensures b == lo || !IsSpace(s[b - 1])
    decreases hi
  {
    if hi > lo && IsSpace(s[hi - 1]) then StripEnd(s, lo, hi - 1) else hi
  }

  /** What follows the keyword, with `\s` stripped from both ends. */
  function Argument(p: Pattern, line: string): string
    requires |p.keyword| <= |line|
  {
    var a := Span(line, |p.keyword|, IsSpace);
    line[a..StripEnd(line, a, |line|)]
  }

  predicate FoldWord(t: string, w: string) {
    |t| == |w| && FoldAt(t, 0, w)
  }

  /** `t` reads v<digits>.<digits>.<digits> with the three digit runs ending at `a`, `b`
    * and `c`, followed by any characters other than `\s`. */
  predicate VersionSplit(t: string, a: nat, b: nat, c: nat) {
    && 1 < a && a + 1 < b && b + 1 < c <= |t|
    && FoldEq(t[0], 'v')
    && (forall k :: 1 <= k < a ==> IsDigit(t[k])) && t[a] == '.'
    && (forall k :: a < k < b ==> IsDigit(t[k])) && t[b] == '.'
    && (forall k :: b < k < c ==> IsDigit(t[k]))
    && (forall k :: c <= k < |t| ==> IsNonSpace(t[k]))
  }

  /** "v1.2.3-nightly", the tag the plugins' tests use, is a version. */
  lemma NightlyIsVersion(t: string)
    requires t == "v1.2.3-nightly"
    ensures VersionSplit(t, 2, 4, 6)
  {
  }

  ghost predicate IsVersion(t: string) {
    exists a, b, c :: VersionSplit(t, a, b, c)
  }

  /** One of the named words (any case), or a version-like reference. */
  ghost predicate ValidArgument(p: Pattern, t: string) {
    ValidFor(p.words, t)
  }

  ghost predicate ValidFor(words: seq<string>, t: string) {
    (exists k :: 0 <= k < |words| && FoldWord(t, words[k])) || IsVersion(t)
  }

  /** The line is the keyword (any case) followed by exactly one valid argument,
    * surrounded by optional `\s`. */
  ghost predicate Accepts(p: Pattern, line: string) {
    FoldAt(line, 0, p.keyword) && ValidArgument(p, Argument(p, line))
  }

  // ---------------------------------------------------------------------------
  // Agreement of the two readings on lines without '\n'.

  lemma FoldEqKeepsNonSpace(c: char, p: char)
    requires FoldEq(c, p) && IsNonSpace(p)
    ensures IsNonSpace(c)
  {
  }

  /** `Span` does not run past a character outside the class. */
  lemma {:induction false} SpanAtMost(s: string, i: nat, j: nat, inClass: char -> bool)
    requires i <= j <= |s| && (j == |s| || !inClass(s[j]))
    ensures Span(s, i, inClass) <= j
    decreases j - i
  {
    if i < j {
      SpanAtMost(s, i + 1, j, inClass);
    }
  }

  /** `Span` runs at least over a stretch of characters in the class. */
  lemma {:induction false} SpanAtLeast(s: string, i: nat, j: nat, inClass: char -> bool)
    requires i <= j <= |s| && forall k :: i <= k < j ==> inClass(s[k])
    ensures Span(s, i, inClass) >= j
    decreases j - i
  {
    if i < j {
      SpanAtLeast(s, i + 1, j, inClass);
    }
  }

  /** Without '\n', `\s*$` after position t succeeds exactly when the rest is all `\s`, and then ends the match at the end of the text. */
  lemma FinishOnOneLine(s: string, i: nat, a: nat, t: nat)
    requires i <= a <= t <= |s| && '\n' !in s
    ensures Finish(s, i, a, t).Some? <==> Span(s, t, IsSpace) == |s|
    ensures Finish(s, i, a, t).Some? ==> Finish(s, i, a, t).value.end == |s|
  {
    var e := Span(s, t, IsSpace);
    forall k | t <= k <= e && k < |s| ensures !AtLineEnd(s, k) {
      assert s[k] in s;
    }
  }

  /** What a successful version alternative has consumed. */
  lemma VersionEndSound(s: string, a: nat)
    requires a <= |s| && VersionEnd(s, a).Some?
    ensures var t := VersionEnd(s, a).value;
      IsVersion(s[a..t]) && IsNonSpace(s[a]) && IsNonSpace(s[t - 1]) && (t == |s| || IsSpace(s[t]))
  {
    var d1, d2, d3 := VersionEndRuns(s, a);
    ShapeIsVersion(s, a, d1, d2, d3, VersionEnd(s, a).value);
  }

  /** The three digit runs the version alternative has read. */
  lemma VersionEndRuns(s: string, a: nat) returns (d1: nat, d2: nat, d3: nat)
    requires a <= |s| && VersionEnd(s, a).Some?
    ensures var t := VersionEnd(s, a).value;
      VersionShape(s, a, d1, d2, d3, t) && (t == |s| || IsSpace(s[t]))
  {
    d1 := Span(s, a + 1, IsDigit);
    d2 := Span(s, d1 + 1, IsDigit);
    d3 := Span(s, d2 + 1, IsDigit);
    assert VersionEnd(s, a).value == Span(s, d3, IsNonSpace);
  }

  /** A version read in place is a version reference, with `\S` at both ends. */
  lemma ShapeIsVersion(s: string, a: nat, d1: nat, d2: nat, e: nat, t: nat)
    requires VersionShape(s, a, d1, d2, e, t)
    ensures IsVersion(s[a..t]) && IsNonSpace(s[a]) && IsNonSpace(s[t - 1])
  {
    var x := s[a..t];
    assert VersionSplit(x, d1 - a, d2 - a, e - a) by {
      forall k | 0 <= k < |x| ensures x[k] == s[a + k] { }
    }
    FoldEqKeepsNonSpace(s[a], 'v');
    assert IsDigit(s[e - 1]);
  }

  /** A run of digits that ends at a '.' is exactly what `[0-9]+` takes. */
  lemma DigitsThenDot(s: string, i: nat, j: nat)
    requires i <= j < |s| && (forall k :: i <= k < j ==> IsDigit(s[k])) && s[j] == '.'
    ensures Span(s, i, IsDigit) == j
  {
    SpanAtLeast(s, i, j, IsDigit);
    SpanAtMost(s, i, j, IsDigit);
  }

  /** `VersionSplit` read in place: the version reference occupies s[a..t]. */
  predicate VersionShape(s: string, a: nat, d1: nat, d2: nat, e: nat, t: nat) {
    && a + 1 < d1 && d1 + 1 < d2 && d2 + 1 < e <= t <= |s|
    && FoldEq(s[a], 'v') && s[d1] == '.' && s[d2] == '.'
    && (forall k :: a < k < d1 ==> IsDigit(s[k]))
    && (forall k :: d1 < k < d2 ==> IsDigit(s[k]))
    && (forall k :: d2 < k < e ==> IsDigit(s[k]))
    && (forall k :: e <= k < t ==> IsNonSpace(s[k]))
  }

  lemma ShapeOfVersion(s: string, a: nat, t: nat) returns (d1: nat, d2: nat, e: nat)
    requires a < t <= |s| && IsVersion(s[a..t])
    ensures VersionShape(s, a, d1, d2, e, t)
  {
    var x := s[a..t];
    var a': nat, b': nat, c': nat :| VersionSplit(x, a', b', c');
    d1, d2, e := a + a', a + b', a + c';
    forall k | a <= k < t ensures s[k] == x[k - a] { }
  }

  lemma VersionEndOfShape(s: string, a: nat, d1: nat, d2: nat, e: nat, t: nat)
    requires VersionShape(s, a, d1, d2, e, t) && (t == |s| || IsSpace(s[t]))
    ensures VersionEnd(s, a) == Some(t)
  {
    DigitsThenDot(s, a + 1, d1);
    DigitsThenDot(s, d1 + 1, d2);
    LastRunsOfShape(s, a, d1, d2, e, t);
  }

  /** After the second '.', the last digit run and the `\S*` run end at `t`. */
  lemma LastRunsOfShape(s: string, a: nat, d1: nat, d2: nat, e: nat, t: nat)
    requires VersionShape(s, a, d1, d2, e, t) && (t == |s| || IsSpace(s[t]))
    ensures var d3 := Span(s, d2 + 1, IsDigit);
      d2 + 1 < d3 <= t && Span(s, d3, IsNonSpace) == t
  {
    var d3 := Span(s, d2 + 1, IsDigit);
    SpanAtLeast(s, d2 + 1, e, IsDigit);
    SpanAtMost(s, d2 + 1, t, IsDigit);
    SpanAtLeast(s, d3, t, IsNonSpace);
    SpanAtMost(s, d3, t, IsNonSpace);
  }

  /** A version reference that fills s[a..t], followed by `\s` or the end, is what the version alternative consumes. */
  lemma VersionEndComplete(s: string, a: nat, t: nat)
    requires a < t <= |s| && IsVersion(s[a..t]) && (t == |s| || IsSpace(s[t]))
    ensures VersionEnd(s, a) == Some(t)
  {
    var d1, d2, e := ShapeOfVersion(s, a, t);
    VersionEndOfShape(s, a, d1, d2, e, t);
  }

  /** What a successful word alternative has consumed, on a line without '\n'. */
  lemma WordSound(s: string, i: nat, a: nat, w: string)
    requires i <= a <= |s| && '\n' !in s && IsWord(w)
    requires FoldAt(s, a, w) && Finish(s, i, a, a + |w|).Some?
    ensures Span(s, a + |w|, IsSpace) == |s| && Finish(s, i, a, a + |w|).value.end == |s|
    ensures IsNonSpace(s[a]) && IsNonSpace(s[a + |w| - 1]) && FoldWord(s[a..a + |w|], w)
  {
    FinishOnOneLine(s, i, a, a + |w|);
    FoldEqKeepsNonSpace(s[a], w[0]);
    FoldEqKeepsNonSpace(s[a + |w| - 1], w[|w| - 1]);
  }

  /** What a successful version alternative has consumed, on a line without '\n'. */
  lemma VersionAlternativeSound(s: string, i: nat, a: nat)
    requires i <= a <= |s| && '\n' !in s
    requires TryAlternatives(s, i, a, []).Some?
    ensures var m := TryAlternatives(s, i, a, []).value;
      && a < m.capEnd && m.end == |s| && Span(s, m.capEnd, IsSpace) == |s|
      && IsNonSpace(s[a]) && IsNonSpace(s[m.capEnd - 1])
      && IsVersion(s[a..m.capEnd])
  {
    var t := VersionEnd(s, a).value;
    VersionEndSound(s, a);
    FinishOnOneLine(s, i, a, t);
  }

  /** What a successful alternation has consumed, on a line without '\n'. */
  lemma {:induction false} AlternativesSound(s: string, i: nat, a: nat, words: seq<string>)
    requires i <= a <= |s| && '\n' !in s
    requires WordsWellFormed(words)
    requires TryAlternatives(s, i, a, words).Some?
    ensures var m := TryAlternatives(s, i, a, words).value;
      && a < m.capEnd && m.end == |s| && Span(s, m.capEnd, IsSpace) == |s|
      && IsNonSpace(s[a]) && IsNonSpace(s[m.capEnd - 1])
      && ValidFor(words, s[a..m.capEnd])
    decreases |words|
  {
    if words == [] {
      VersionAlternativeSound(s, i, a);
    } else if FoldAt(s, a, words[0]) && Finish(s, i, a, a + |words[0]|).Some? {
      WordSound(s, i, a, words[0]);
    } else {
      var rest := words[1..];
      WordsTail(words);
      AlternativesSound(s, i, a, rest);
      var m := TryAlternatives(s, i, a, rest).value;
      ValidForTail(words, s[a..m.capEnd]);
    }
  }

  lemma WordsTail(words: seq<string>)
    requires words != [] && WordsWellFormed(words)
    ensures WordsWellFormed(words[1..])
  {
    forall k | 0 <= k < |words| - 1 ensures IsWord(words[1..][k]) {
      assert words[1..][k] == words[k + 1];
    }
  }

  /** An argument valid for the later alternatives is valid for all of them. */
  lemma ValidForTail(words: seq<string>, x: string)
    requires words != [] && ValidFor(words[1..], x)
    ensures ValidFor(words, x)
  {
    if !IsVersion(x) {
      var k :| 0 <= k < |words| - 1 && FoldWord(x, words[1..][k]);
      assert FoldWord(x, words[k + 1]);
    }
  }

  /** A valid argument filling s[a..t], with only `\s` after it, makes the alternation succeed. */
  lemma {:induction false} AlternativesComplete(s: string, i: nat, a: nat, t: nat, words: seq<string>)
    requires i <= a < t <= |s| && '\n' !in s
    requires ValidFor(words, s[a..t]) && Span(s, t, IsSpace) == |s|
    ensures TryAlternatives(s, i, a, words).Some?
    decreases |words|
  {
    var x := s[a..t];
    if words == [] {
      assert IsVersion(x);
      VersionEndComplete(s, a, t);
      FinishOnOneLine(s, i, a, t);
    } else if FoldWord(x, words[0]) {
      assert FoldAt(s, a, words[0]) by {
        forall k | 0 <= k < |words[0]| ensures FoldEq(s[a + k], words[0][k]) {
          assert x[k] == s[a + k];
        }
      }
      FinishOnOneLine(s, i, a, a + |words[0]|);
    } else {
      if !IsVersion(x) {
        var k :| 0 <= k < |words| && FoldWord(x, words[k]);
        assert FoldWord(x, words[1..][k - 1]);
      }
      AlternativesComplete(s, i, a, t, words[1..]);
    }
  }

  /** Without '\n' no position after 0 starts a line. */
  lemma {:induction false} NoLaterMatch(p: Pattern, s: string, i: nat)
    requires 0 < i <= |s| && '\n' !in s
    ensures FirstMatchFrom(p, s, i) == None
    decreases |s| - i
  {
    assert s[i - 1] in s;
    if i < |s| {
      NoLaterMatch(p, s, i + 1);
    }
  }

  /** On a line without '\n' the recognizer accepts exactly the lines `Accepts`
    * describes; a match then spans the whole line and captures the stripped argument. */
  lemma FirstMatchCharacterized(p: Pattern, line: string)
    requires WellFormed(p) && '\n' !in line
    ensures FirstMatch(p, line).Some? <==> Accepts(p, line)
    ensures FirstMatch(p, line).Some? ==>
      var m := FirstMatch(p, line).value;
      m.start == 0 && m.end == |line| && line[m.capStart..m.capEnd] == Argument(p, line)
  {
    if |line| > 0 {
      NoLaterMatch(p, line, 1);
    }
    assert FirstMatch(p, line) == MatchAt(p, line, 0);
    if FoldAt(line, 0, p.keyword) {
      var a := Span(line, |p.keyword|, IsSpace);
      var b := StripEnd(line, a, |line|);
      assert Argument(p, line) == line[a..b];
      if MatchAt(p, line, 0).Some? {
        AlternativesSound(line, 0, a, p.words);
        var t := MatchAt(p, line, 0).value.capEnd;
        assert IsNonSpace(line[t - 1]) && b <= |line|;
        assert b > a ==> IsNonSpace(line[b - 1]);
        assert b == t;
      }
      if ValidArgument(p, line[a..b]) {
        ValidArgumentStart(p, line[a..b]);
        AlternativesComplete(line, 0, a, b, p.words);
      }
    }
  }

  /** Every valid argument begins with a character that folds to the first
    * character of one of the words, or to 'v'. */
  lemma ValidArgumentStart(p: Pattern, t: string)
    requires ValidArgument(p, t) && WellFormed(p)
    ensures |t| > 0
    ensures FoldEq(t[0], 'v') || exists k :: 0 <= k < |p.words| && FoldEq(t[0], p.words[k][0])
  {
    if !IsVersion(t) {
      var k :| 0 <= k < |p.words| && FoldWord(t, p.words[k]);
      assert FoldEq(t[0], p.words[k][0]);
    }
  }

  // ---------------------------------------------------------------------------
  // Reading `Argument` and `ValidArgument` off a concrete line.

  lemma {:induction false} StripEndAt(s: string, lo: nat, hi: nat, b: nat)
    requires lo <= b <= hi <= |s|
    requires forall k :: b <= k < hi ==> IsSpace(s[k])
    requires b == lo || !IsSpace(s[b - 1])
    ensures StripEnd(s, lo, hi) == b
    decreases hi
  {
    if hi > b {
      StripEndAt(s, lo, hi - 1, b);
    }
  }

  /** The argument is line[a..b] when `\s` runs from the keyword to `a` and from `b` to the end. */
  lemma ArgumentIs(p: Pattern, line: string, a: nat, b: nat)
    requires |p.keyword| <= a <= b <= |line|
    requires forall k :: |p.keyword| <= k < a ==> IsSpace(line[k])
    requires a == |line| || !IsSpace(line[a])
    requires forall k :: b <= k < |line| ==> IsSpace(line[k])
    requires b == a || !IsSpace(line[b - 1])
    ensures Argument(p, line) == line[a..b]
  {
    SpanAtLeast(line, |p.keyword|, a, IsSpace);
    SpanAtMost(line, |p.keyword|, a, IsSpace);
    StripEndAt(line, a, |line|, b);
  }

  /** An argument that starts like neither a version nor any word of its length is not valid. */
  lemma RejectedArgument(words: seq<string>, t: string)
    requires WordsWellFormed(words)
    requires t == [] || !FoldEq(t[0], 'v')
    requires forall k :: 0 <= k < |words| ==> |words[k]| != |t| || !FoldEq(t[0], words[k][0])
    ensures !ValidFor(words, t)
  {
  }
}

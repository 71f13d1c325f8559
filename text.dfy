/** The string helpers every chat plugin uses before it matches a command:
  * `extractCommand` (run-perf.go, build-docker.go, fusebench_local.go and
  * label-run-perf.go each carry an identical copy), Go's `strings.Contains`
  * and `strings.HasPrefix`, and `strconv.Itoa`. */
module Text {

  /** The cutset "\r\n\t " that `extractCommand` passes to `strings.TrimLeft` and `strings.TrimRight`. */
  predicate InCutset(c: char) {
    c == '\r' || c == '\n' || c == '\t' || c == ' '
  }

  /** `strings.TrimLeft(s, "\r\n\t ")`: drops the longest prefix of cutset characters. */
  function TrimLeft(s: string): (r: string)
    ensures |r| <= |s| && r == s[|s| - |r|..]
    ensures forall k :: 0 <= k < |s| - |r| ==> InCutset(s[k])
    ensures r == [] || !InCutset(r[0])
  {
    if s != [] && InCutset(s[0]) then TrimLeft(s[1..]) else s
  }

  /** `strings.TrimRight(s, "\r\n\t ")`: drops the longest suffix of cutset characters. */
  function TrimRight(s: string): (r: string)
    ensures |r| <= |s| && r == s[..|r|]
    ensures forall k :: |r| <= k < |s| ==> InCutset(s[k])
    ensures r == [] || !InCutset(r[|r| - 1])
  {
    if s != [] && InCutset(s[|s| - 1]) then TrimRight(s[..|s| - 1]) else s
  }

  /** `strings.Index(s, string(c))` for a one-character needle: the first position of `c`, or -1. */
  function IndexOf(s: string, c: char): (i: int)
    ensures -1 <= i < |s|
    ensures i == -1 <==> c !in s
    ensures i >= 0 ==> s[i] == c && c !in s[..i]
  {
    if s == [] then -1
    else if s[0] == c then 0
    else
      var j := IndexOf(s[1..], c);
      assert j >= 0 ==> s[..j + 1] == [s[0]] + s[1..][..j];
      if j == -1 then -1 else j + 1
  }

  /** `extractCommand`: the first line of a comment, with the cutset trimmed from both ends. */
  function ExtractCommand(s: string): (r: string)
    ensures '\n' !in r
    ensures r == [] || (!InCutset(r[0]) && !InCutset(r[|r| - 1]))
  {
    var t := TrimLeft(s);
    var i := IndexOf(t, '\n');
    var u := if i != -1 then t[..i] else t;
    TrimRight(u)
  }

  /** `r` occurs in `s` as one contiguous piece. */
  predicate IsSlice(r: string, s: string) {
    exists i, j :: 0 <= i <= j <= |s| && r == s[i..j]
  }

  /** The extracted command is a contiguous piece of the comment: nothing is rewritten,
    * only cut away at both ends. */
  lemma ExtractCommandIsSlice(s: string)
    ensures IsSlice(ExtractCommand(s), s)
  {
    var t := TrimLeft(s);
    var u := FirstLine(t);
    var r := TrimRight(u);
    PrefixOfPrefix(t, u, r);
    PrefixOfSuffix(s, t, r);
    assert ExtractCommand(s) == r by { ExtractCommandSteps(s); }
  }

  /** A prefix of a suffix of `s` is a slice of `s`. */
  lemma PrefixOfSuffix(s: string, t: string, r: string)
    requires |t| <= |s| && t == s[|s| - |t|..] && |r| <= |t| && r == t[..|r|]
    ensures IsSlice(r, s)
  {
    var i := |s| - |t|;
    assert r == s[i..i + |r|];
  }

  /** A prefix of a prefix of `t` is a prefix of `t`. */
  lemma PrefixOfPrefix(t: string, u: string, r: string)
    requires |u| <= |t| && u == t[..|u|] && |r| <= |u| && r == u[..|r|]
    ensures r == t[..|r|]
  {
  }

  /** A command already extracted is its own extraction. */
  lemma ExtractCommandIdempotent(s: string)
    ensures ExtractCommand(ExtractCommand(s)) == ExtractCommand(s)
  {
    var r := ExtractCommand(s);
    assert TrimLeft(r) == r;
    assert IndexOf(r, '\n') == -1;
    assert TrimRight(r) == r;
  }

  lemma {:induction false} TrimLeftDropsPadding(pre: string, rest: string)
    requires forall k :: 0 <= k < |pre| ==> InCutset(pre[k])
    requires rest != [] && !InCutset(rest[0])
    ensures TrimLeft(pre + rest) == rest
    decreases |pre|
  {
    if pre != [] {
      assert (pre + rest)[1..] == pre[1..] + rest;
      TrimLeftDropsPadding(pre[1..], rest);
    }
  }

  lemma {:induction false} TrimRightDropsPadding(c: string, post: string)
    requires forall k :: 0 <= k < |post| ==> InCutset(post[k])
    requires c != [] && !InCutset(c[|c| - 1])
    ensures TrimRight(c + post) == c
    decreases |post|
  {
    if post != [] {
      assert (c + post)[..|c + post| - 1] == c + post[..|post| - 1];
      TrimRightDropsPadding(c, post[..|post| - 1]);
    }
  }

  /** `ExtractCommand` as the three steps it is made of. */
  lemma ExtractCommandSteps(s: string)
    ensures ExtractCommand(s) == TrimRight(FirstLine(TrimLeft(s)))
  {
  }

  /** The text before the first '\n'. */
  function FirstLine(t: string): (u: string)
    ensures '\n' !in u && (u == t || (|u| < |t| && t[..|u|] == u && t[|u|] == '\n'))
  {
    var i := IndexOf(t, '\n');
    if i != -1 then t[..i] else t
  }

  lemma PaddingSteps(pre: string, c: string, post: string)
    requires forall k :: 0 <= k < |pre| ==> InCutset(pre[k])
    requires c != [] && '\n' !in c && !InCutset(c[0]) && !InCutset(c[|c| - 1])
    requires forall k :: 0 <= k < |post| ==> InCutset(post[k])
    ensures TrimRight(FirstLine(TrimLeft(pre + (c + post)))) == c
  {
    TrimLeftDropsPadding(pre, c + post);
    var n := FirstLineOfPadded(c, post);
    TrimRightDropsPadding(c, post[..n]);
  }

  /** The first line of a one-line text followed by more keeps the whole text. */
  lemma FirstLineOfPadded(c: string, post: string) returns (n: nat)
    requires '\n' !in c
    ensures n <= |post| && FirstLine(c + post) == c + post[..n]
  {
    var t := c + post;
    var u := FirstLine(t);
    n := |u| - |c|;
    assert u == t[..|u|];
    assert t[..|u|] == c + post[..n];
  }

  /** Cutset characters around a one-line command do not change what is extracted. */
  lemma ExtractCommandIgnoresPadding(pre: string, c: string, post: string)
    requires forall k :: 0 <= k < |pre| ==> InCutset(pre[k])
    requires c != [] && '\n' !in c && !InCutset(c[0]) && !InCutset(c[|c| - 1])
    requires forall k :: 0 <= k < |post| ==> InCutset(post[k])
    ensures ExtractCommand(pre + c + post) == c
  {
    assert pre + c + post == pre + (c + post);
    PaddingSteps(pre, c, post);
    ExtractCommandSteps(pre + (c + post));
  }

  /** `sub` occurs in `s` starting at position `k`. */
  predicate OccursAt(s: string, sub: string, k: nat) {
    k + |sub| <= |s| && s[k..k + |sub|] == sub
  }

  /** `strings.Contains(s, sub)`. */
  predicate Contains(s: string, sub: string) {
    exists k: nat | k <= |s| :: OccursAt(s, sub, k)
  }

  /** `strings.HasPrefix(s, prefix)`. */
  predicate HasPrefix(s: string, prefix: string) {
    |prefix| <= |s| && s[..|prefix|] == prefix
  }

  predicate IsDecimalDigit(c: char) {
    '0' <= c <= '9'
  }

  function DigitChar(d: nat): (c: char)
    requires d < 10
    ensures IsDecimalDigit(c) && c as int - '0' as int == d
  {
    ('0' as int + d) as char
  }

  /** The base-10 digits of a natural number, most significant first, without leading zeros. */
  function NatToDecimal(n: nat): (r: string)
    ensures |r| >= 1
    ensures forall k :: 0 <= k < |r| ==> IsDecimalDigit(r[k])
    ensures r[0] != '0' || n == 0
    decreases n
  {
    if n < 10 then [DigitChar(n)] else NatToDecimal(n / 10) + [DigitChar(n % 10)]
  }

  /** `strconv.Itoa`: the decimal text of an integer, with a leading '-' when it is negative. */
  function Itoa(n: int): (r: string)
    ensures |r| >= 1
  {
    if n < 0 then "-" + NatToDecimal(-n) else NatToDecimal(n)
  }

  /** The number a string of decimal digits denotes. */
  function DigitsValue(s: string): nat
    requires forall k :: 0 <= k < |s| ==> IsDecimalDigit(s[k])
  {
    if s == [] then 0
    else
      assert IsDecimalDigit(s[|s| - 1]);
      DigitsValue(s[..|s| - 1]) * 10 + (s[|s| - 1] as int - '0' as int)
  }

  /** Reads back an optionally signed decimal numeral, the inverse of `Itoa`. */
  function DecimalValue(s: string): int
    requires s != [] && (s[0] == '-' || IsDecimalDigit(s[0]))
    requires forall k :: 1 <= k < |s| ==> IsDecimalDigit(s[k])
  {
    if s[0] == '-' then -(DigitsValue(s[1..]) as int) else DigitsValue(s)
  }

  lemma {:induction false} NatToDecimalValue(n: nat)
    ensures DigitsValue(NatToDecimal(n)) == n
    decreases n
  {
    if n >= 10 {
      var r := NatToDecimal(n);
      NatToDecimalValue(n / 10);
      assert r[..|r| - 1] == NatToDecimal(n / 10);
    }
  }

  /** The PR number written into a payload decodes back to the PR number. */
  lemma ItoaRoundTrip(n: int)
    ensures var r := Itoa(n);
      (r[0] == '-' || IsDecimalDigit(r[0])) && (forall k :: 1 <= k < |r| ==> IsDecimalDigit(r[k]))
      && DecimalValue(r) == n
  {
    if n < 0 {
      NatToDecimalValue(-n);
      assert Itoa(n)[1..] == NatToDecimal(-n);
    } else {
      NatToDecimalValue(n);
    }
  }
}

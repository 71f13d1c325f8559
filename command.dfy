/** The front half every comment plugin shares: take the first line of the comment
  * (`extractCommand`) and read the RELEASE group of the first match of the plugin's
  * pattern (`FindAllStringSubmatch(command, -1)[0][1]`). */
module Command {
  import opened Wrappers
  import opened Pattern
  import Text

  /** The error run-perf and build-docker return when the match list is nil. */
  const NoMatchError := "there is no matching regex"

  /** The RELEASE capture for a comment body, or None when Go's match list is nil. */
  function Capture(p: Pattern, body: string): Option<string> {
    var command := Text.ExtractCommand(body);
    match FirstMatch(p, command)
    case None => None
    case Some(m) => Some(command[m.capStart..m.capEnd])
  }

  /** A comment is taken up exactly when its first line is the keyword and one valid
    * argument, and the capture is that argument with surrounding `\s` removed. */
  lemma CaptureCharacterized(p: Pattern, body: string)
    requires WellFormed(p)
    ensures Capture(p, body).Some? <==> Accepts(p, Text.ExtractCommand(body))
    ensures Capture(p, body).Some? ==> Capture(p, body).value == Argument(p, Text.ExtractCommand(body))
  {
    FirstMatchCharacterized(p, Text.ExtractCommand(body));
  }

  /** The line `keyword + sep + t`: a single line, free of cutset characters at its
    * ends, that starts with the keyword and whose argument is `t`. */
  lemma CommandLine(p: Pattern, sep: string, t: string)
    requires p.keyword != [] && IsNonSpace(p.keyword[0]) && '\n' !in p.keyword
    requires forall k :: 0 <= k < |sep| ==> IsSpace(sep[k]) && sep[k] != '\n'
    requires t != [] && '\n' !in t && IsNonSpace(t[0]) && IsNonSpace(t[|t| - 1])
    ensures var line := p.keyword + sep + t;
      && line != [] && '\n' !in line && !Text.InCutset(line[0]) && !Text.InCutset(line[|line| - 1])
      && FoldAt(line, 0, p.keyword) && Argument(p, line) == t
  {
    var line := p.keyword + sep + t;
    assert '\n' !in sep by {
      forall k | 0 <= k < |sep| ensures sep[k] != '\n' { }
    }
    assert line[0] == p.keyword[0] && line[|line| - 1] == t[|t| - 1];
    var a := |p.keyword| + |sep|;
    assert line[a] == t[0];
    assert line[a..] == t;
    ArgumentIs(p, line, a, |line|);
    assert forall k :: 0 <= k < |p.keyword| ==> line[k] == p.keyword[k];
  }

  /** A comment whose first line is the bare keyword is never taken up: the argument is empty. */
  lemma CaptureOfBareKeyword(p: Pattern, pre: string, post: string)
    requires WellFormed(p)
    requires p.keyword != [] && IsNonSpace(p.keyword[0]) && IsNonSpace(p.keyword[|p.keyword| - 1])
    requires '\n' !in p.keyword
    requires forall k :: 0 <= k < |pre| ==> Text.InCutset(pre[k])
    requires forall k :: 0 <= k < |post| ==> Text.InCutset(post[k])
    ensures Capture(p, pre + p.keyword + post) == None
  {
    var line := p.keyword;
    Text.ExtractCommandIgnoresPadding(pre, line, post);
    ArgumentIs(p, line, |line|, |line|);
    RejectedArgument(p.words, []);
    CaptureCharacterized(p, pre + line + post);
  }

  /** A comment whose first line is the keyword, optional `\s`, then a text `t` that
    * starts and ends with a non-`\s` character, with any cutset padding around that
    * line: it is taken up exactly when `t` is a valid argument, and `t` is the capture. */
  lemma CaptureOfCommand(p: Pattern, pre: string, sep: string, t: string, post: string)
    requires WellFormed(p)
    requires p.keyword != [] && IsNonSpace(p.keyword[0]) && '\n' !in p.keyword
    requires forall k :: 0 <= k < |pre| ==> Text.InCutset(pre[k])
    requires forall k :: 0 <= k < |sep| ==> IsSpace(sep[k]) && sep[k] != '\n'
    requires t != [] && '\n' !in t && IsNonSpace(t[0]) && IsNonSpace(t[|t| - 1])
    requires forall k :: 0 <= k < |post| ==> Text.InCutset(post[k])
    ensures Capture(p, pre + (p.keyword + sep + t) + post) == if ValidArgument(p, t) then Some(t) else None
  {
    var line := p.keyword + sep + t;
    CommandLine(p, sep, t);
    Text.ExtractCommandIgnoresPadding(pre, line, post);
    CaptureCharacterized(p, pre + line + post);
  }

  /** What a keyword needs for the lemmas below: non-empty, one line, starting and
    * ending with a non-`\s` character. */
  predicate PlainKeyword(keyword: string) {
    keyword != [] && '\n' !in keyword && IsNonSpace(keyword[0]) && IsNonSpace(keyword[|keyword| - 1])
  }

  /** A word has no '\n' and starts and ends with a non-`\s` character. */
  lemma WordIsOneLine(t: string)
    requires IsWord(t)
    ensures '\n' !in t && IsNonSpace(t[0]) && IsNonSpace(t[|t| - 1])
  {
    assert forall j :: 0 <= j < |t| ==> t[j] != '\n';
  }

  /** `<keyword> <t>` is captured as `t` when `t` spells one of the words, in any case. */
  lemma CaptureOfWord(p: Pattern, body: string, t: string, k: nat)
    requires WellFormed(p) && PlainKeyword(p.keyword)
    requires k < |p.words| && FoldWord(t, p.words[k]) && body == p.keyword + " " + t
    ensures Capture(p, body) == Some(t)
  {
    assert IsWord(t) by {
      forall j | 0 <= j < |t| ensures IsNonSpace(t[j]) {
        FoldEqKeepsNonSpace(t[j], p.words[k][j]);
      }
    }
    CaptureOfPlainArgument(p, body, t);
  }

  /** `<keyword> <t>` between a leading "\r\n" and a trailing tab is captured as `t`
    * when `t` spells one of the words: the padding is cut before matching. */
  lemma CaptureOfPaddedWord(p: Pattern, t: string, k: nat)
    requires WellFormed(p) && PlainKeyword(p.keyword)
    requires k < |p.words| && FoldWord(t, p.words[k])
    ensures Capture(p, "\r\n" + (p.keyword + " " + t) + "\t") == Some(t)
  {
    assert IsWord(t) by {
      forall j | 0 <= j < |t| ensures IsNonSpace(t[j]) {
        FoldEqKeepsNonSpace(t[j], p.words[k][j]);
      }
    }
    WordIsOneLine(t);
    assert Text.InCutset('\r') && Text.InCutset('\n') && Text.InCutset('\t');
    CaptureOfCommand(p, "\r\n", " ", t, "\t");
  }

  /** `<keyword> <t>` is captured as `t` when `t` is a version. */
  lemma CaptureOfVersion(p: Pattern, body: string, t: string, a: nat, b: nat, c: nat)
    requires WellFormed(p) && PlainKeyword(p.keyword)
    requires VersionSplit(t, a, b, c) && body == p.keyword + " " + t
    ensures Capture(p, body) == Some(t)
  {
    assert IsWord(t) by {
      forall j | 0 <= j < |t| ensures IsNonSpace(t[j]) {
        assert j == 0 || j == a || j == b || IsDigit(t[j]) || IsNonSpace(t[j]);
      }
    }
    CaptureOfPlainArgument(p, body, t);
  }

  lemma CaptureOfPlainArgument(p: Pattern, body: string, t: string)
    requires WellFormed(p) && PlainKeyword(p.keyword)
    requires IsWord(t) && body == p.keyword + " " + t
    ensures Capture(p, body) == if ValidArgument(p, t) then Some(t) else None
  {
    assert body == [] + (p.keyword + " " + t) + [];
    WordIsOneLine(t);
    CaptureOfCommand(p, [], " ", t, []);
  }

  /** `<keyword><sep><t>` is not taken up when `t` starts like no version and like no
    * word of its own length. */
  lemma CaptureOfRejected(p: Pattern, body: string, sep: string, t: string)
    requires WellFormed(p) && PlainKeyword(p.keyword) && body == p.keyword + sep + t
    requires forall k :: 0 <= k < |sep| ==> IsSpace(sep[k]) && sep[k] != '\n'
    requires t != [] && '\n' !in t && IsNonSpace(t[0]) && IsNonSpace(t[|t| - 1])
    requires !FoldEq(t[0], 'v')
    requires forall k :: 0 <= k < |p.words| ==> |p.words[k]| != |t| || !FoldEq(t[0], p.words[k][0])
    ensures Capture(p, body) == None
  {
    assert body == [] + (p.keyword + sep + t) + [];
    RejectedArgument(p.words, t);
    CaptureOfCommand(p, [], sep, t, []);
  }
}


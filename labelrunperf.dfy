/** The label-run-perf plugin (chatbots/plugins/labelrunperf/label-run-perf.go):
  * on a push it looks at the pull requests associated with the pushed commit and,
  * for each one whose author may run commands, turns the first label that reads
  * like a command (`run-perf master`, `rerun-perf-all latest`, ...) back into a
  * slash command posted as a comment on that pull request.
  *
  * The three patterns live in a Go map, whose iteration order is not fixed; the
  * order a `range` visits them in is an input here. On a label without '\n' at
  * most one pattern matches, so the order never changes what is posted. */
module LabelRunPerf {
  import opened Wrappers
  import opened Pattern
  import opened Github
  import Text
  import Command
  import RunPerf

  /** `(?mi)^run-perf\s*(?P<RELEASE>master|main|latest|v[0-9]+\.[0-9]+\.[0-9]+\S*)\s*$` */
  const RunPerfLabel := Pattern("run-perf", ["master", "main", "latest"])

  /** `(?mi)^rerun-perf-all\s*(?P<RELEASE>master|main|latest|v[0-9]+\.[0-9]+\.[0-9]+\S*)\s*$` */
  const RerunAllLabel := Pattern("rerun-perf-all", ["master", "main", "latest"])

  /** `(?mi)^rerun-perf\s*(?P<RELEASE>master|main|latest|v[0-9]+\.[0-9]+\.[0-9]+\S*)\s*$` */
  const RerunLabel := Pattern("rerun-perf", ["master", "main", "latest"])

  const RunPerfName := "run_perf"
  const RerunAllName := "rerun_perf_all"
  const RerunName := "rerun_perf"

  /** The map `newLabelRunPerf` builds. */
  const LabelPatterns: map<string, Pattern> :=
    map[RunPerfName := RunPerfLabel, RerunAllName := RerunAllLabel, RerunName := RerunLabel]

  /** A pull request as `ListAssociatedPR` returns it: its number, its author's
    * association and the names of its labels (none for a nil label list). */
  datatype PullRequest = PullRequest(number: int, authorAssociation: string, labels: seq<string>)

  /** Every name in `order` has a pattern. */
  predicate Named(regexp: map<string, Pattern>, order: seq<string>) {
    forall i :: 0 <= i < |order| ==> order[i] in regexp
  }

  /** An order in which `range` may visit `regexp`: each name exactly once. */
  ghost predicate IsOrder(regexp: map<string, Pattern>, order: seq<string>) {
    && Named(regexp, order)
    && (forall n :: n in regexp <==> n in order)
    && (forall i, j :: 0 <= i < j < |order| ==> order[i] != order[j])
  }

  /** The first name, visiting `regexp` in `order`, whose pattern matches somewhere in
    * `text`, with that first match. */
  function FirstByOrder(regexp: map<string, Pattern>, order: seq<string>, text: string): (r: Option<(string, Match)>)
    requires Named(regexp, order)
    ensures r.Some? ==> Within(text, r.value.1)
    decreases |order|
  {
    if order == [] then None
    else
      match FirstMatch(regexp[order[0]], text)
      case Some(m) => Some((order[0], m))
      case None => FirstByOrder(regexp, order[1..], text)
  }

  /** Nothing is found exactly when no pattern matches; what is found is a name of the
    * order with its pattern's first match, and every name before it does not match. */
  lemma {:induction false} FirstByOrderCharacterized(regexp: map<string, Pattern>, order: seq<string>, text: string)
    requires Named(regexp, order)
    ensures var r := FirstByOrder(regexp, order, text);
      && (r.None? <==> forall i :: 0 <= i < |order| ==> FirstMatch(regexp[order[i]], text).None?)
      && (r.Some? ==>
            exists i :: 0 <= i < |order| && order[i] == r.value.0 &&
              FirstMatch(regexp[order[i]], text) == Some(r.value.1) &&
              (forall j :: 0 <= j < i ==> FirstMatch(regexp[order[j]], text).None?))
    decreases |order|
  {
    if order != [] && FirstMatch(regexp[order[0]], text).None? {
      FirstByOrderCharacterized(regexp, order[1..], text);
      assert forall i :: 1 <= i < |order| ==> order[i] == order[1..][i - 1];
      var r := FirstByOrder(regexp, order, text);
      if r.Some? {
        var i :| 0 <= i < |order[1..]| && order[1..][i] == r.value.0 &&
          FirstMatch(regexp[order[1..][i]], text) == Some(r.value.1) &&
          (forall j :: 0 <= j < i ==> FirstMatch(regexp[order[1..][j]], text).None?);
        assert order[i + 1] == r.value.0;
      }
    }
  }

  /** What `make_comment` returns: "/" followed by the whole first match, or "". */
  function LabelComment(regexp: map<string, Pattern>, order: seq<string>, text: string): string
    requires Named(regexp, order)
  {
    match FirstByOrder(regexp, order, text)
    case None => ""
    case Some((_, m)) => "/" + text[m.start..m.end]
  }

  /** The comment `commentByLabel` posts: the first non-empty label comment, or "". */
  function FirstComment(regexp: map<string, Pattern>, order: seq<string>, labels: seq<string>): string
    requires Named(regexp, order)
    decreases |labels|
  {
    if labels == [] then ""
    else if LabelComment(regexp, order, labels[0]) != "" then LabelComment(regexp, order, labels[0])
    else FirstComment(regexp, order, labels[1..])
  }

  /** The posted comment is "" exactly when no label gives one; otherwise it is the
    * comment of a label all of whose predecessors give none. */
  lemma {:induction false} FirstCommentCharacterized(regexp: map<string, Pattern>, order: seq<string>, labels: seq<string>)
    requires Named(regexp, order)
    ensures var c := FirstComment(regexp, order, labels);
      && (c == "" <==> forall j :: 0 <= j < |labels| ==> LabelComment(regexp, order, labels[j]) == "")
      && (c != "" ==>
            exists j :: 0 <= j < |labels| && LabelComment(regexp, order, labels[j]) == c &&
              (forall i :: 0 <= i < j ==> LabelComment(regexp, order, labels[i]) == ""))
    decreases |labels|
  {
    if labels != [] && LabelComment(regexp, order, labels[0]) == "" {
      FirstCommentCharacterized(regexp, order, labels[1..]);
      assert forall j :: 1 <= j < |labels| ==> labels[j] == labels[1..][j - 1];
      var c := FirstComment(regexp, order, labels);
      if c != "" {
        var j :| 0 <= j < |labels[1..]| && LabelComment(regexp, order, labels[1..][j]) == c &&
          (forall i :: 0 <= i < j ==> LabelComment(regexp, order, labels[1..][i]) == "");
        assert LabelComment(regexp, order, labels[j + 1]) == c;
      }
    }
  }

  /** `FirstComment` of a suffix of the labels, one label further. */
  lemma FirstCommentStep(regexp: map<string, Pattern>, order: seq<string>, labels: seq<string>, i: nat)
    requires Named(regexp, order) && i < |labels|
    ensures var c := LabelComment(regexp, order, labels[i]);
      FirstComment(regexp, order, labels[i..]) == if c != "" then c else FirstComment(regexp, order, labels[i + 1..])
  {
    assert labels[i..][0] == labels[i] && labels[i..][1..] == labels[i + 1..];
  }

  /** The comment `commentByLabel` would post for each pull request. */
  function Comments(regexp: map<string, Pattern>, order: seq<string>, prs: seq<PullRequest>): (cs: seq<string>)
    requires Named(regexp, order)
    ensures |cs| == |prs|
    ensures forall i {:trigger cs[i]} :: 0 <= i < |prs| ==> cs[i] == FirstComment(regexp, order, prs[i].labels)
    decreases |prs|
  {
    if prs == [] then []
    else
      var shorter := prs[..|prs| - 1];
      var cs := Comments(regexp, order, shorter);
      assert forall i :: 0 <= i < |shorter| ==> shorter[i] == prs[i] && cs[i] == FirstComment(regexp, order, prs[i].labels);
      cs + [FirstComment(regexp, order, prs[|prs| - 1].labels)]
  }

  /** What `handle` leaves behind after the pull requests `prs`, whose label comments are
    * `cs`, starting from the client's PR number `pr0`: the PR number the client ends with
    * and the comments posted. */
  function Posts(prs: seq<PullRequest>, cs: seq<string>, pr0: int): (int, seq<Effect>)
    requires |cs| == |prs|
    decreases |prs|
  {
    if prs == [] then (pr0, [])
    else
      var (pr, trace) := Posts(prs[..|prs| - 1], cs[..|cs| - 1], pr0);
      var last := prs[|prs| - 1];
      var c := cs[|cs| - 1];
      if !Allowed(last.authorAssociation) || c == "" then (pr, trace)
      else (last.number, trace + [Comment(last.number, c)])
  }

  class Handler {
    /** the patterns by name, `regs` for every handler `newLabelRunPerf` builds */
    const regexp: map<string, Pattern>
    /** `gc.Author` */
    const author: string
    /** `gc.Pr`, which `commentByLabel` overwrites before posting */
    var pr: int
    /** the comments posted through `gc` so far, oldest first */
    var effects: seq<Effect>

    /** `newLabelRunPerf` once the client is built. */
    constructor (author: string, pr: int)
      ensures regexp == LabelPatterns && this.author == author && this.pr == pr && effects == []
    {
      regexp := LabelPatterns;
      this.author := author;
      this.pr := pr;
      effects := [];
    }

    /** `findMatches`: the patterns in the order `range` visits them, the first one that
      * matches wins; (nil, "") when none does. */
    method FindMatches(order: seq<string>, command: string) returns (matches: Option<Match>, dispatchName: string)
      requires Named(regexp, order)
      ensures FirstByOrder(regexp, order, command) == if matches.None? then None else Some((dispatchName, matches.value))
      ensures matches.None? ==> dispatchName == ""
    {
      var i := 0;
      while i < |order|
        invariant 0 <= i <= |order|
        invariant FirstByOrder(regexp, order, command) == FirstByOrder(regexp, order[i..], command)
      {
        var m := FirstMatch(regexp[order[i]], command);
        if m.Some? {
          return m, order[i];
        }
        assert order[i..][1..] == order[i + 1..];
        i := i + 1;
      }
      return None, "";
    }

    /** `make_comment`. */
    method MakeComment(order: seq<string>, text: string) returns (comment: string)
      requires Named(regexp, order)
      ensures comment == LabelComment(regexp, order, text)
    {
      var m, _ := FindMatches(order, text);
      if m.None? {
        return "";
      }
      return "/" + text[m.value.start..m.value.end];
    }

    /** `PostComment` on the client's current PR; its error is only logged. */
    method PostComment(body: string)
      modifies this
      ensures effects == old(effects) + [Comment(pr, body)] && pr == old(pr)
    {
      effects := effects + [Comment(pr, body)];
    }

    /** `commentByLabel`: post the comment of the first label that reads as a command,
      * on this PR, and stop; always nil. */
    method CommentByLabel(order: seq<string>, pullRequest: PullRequest) returns (err: Option<string>)
      requires Named(regexp, order)
      modifies this
      ensures err.None?
      ensures var c := FirstComment(regexp, order, pullRequest.labels);
        if c == "" then pr == old(pr) && effects == old(effects)
        else pr == pullRequest.number && effects == old(effects) + [Comment(pullRequest.number, c)]
    {
      var labels := pullRequest.labels;
      var i := 0;
      while i < |labels|
        invariant 0 <= i <= |labels|
        invariant FirstComment(regexp, order, labels) == FirstComment(regexp, order, labels[i..])
        invariant pr == old(pr) && effects == old(effects)
      {
        FirstCommentStep(regexp, order, labels, i);
        var comment := MakeComment(order, labels[i]);
        if comment != "" {
          pr := pullRequest.number;
          PostComment(comment);
          return None;
        }
        i := i + 1;
      }
      assert labels[i..] == [];
      return None;
    }

    /** `handle`: skip the pull requests whose author may not run commands and comment
      * on the others by name; always nil. */
    method Handle(order: seq<string>, prs: seq<PullRequest>) returns (err: Option<string>)
      requires Named(regexp, order)
      modifies this
      ensures err.None?
      ensures pr == Posts(prs, Comments(regexp, order, prs), old(pr)).0
      ensures effects == old(effects) + Posts(prs, Comments(regexp, order, prs), old(pr)).1
    {
      ghost var cs := Comments(regexp, order, prs);
      var i := 0;
      assert prs[..0] == [] && cs[..0] == [] && effects + [] == effects;
      while i < |prs|
        invariant 0 <= i <= |prs|
        invariant pr == Posts(prs[..i], cs[..i], old(pr)).0
        invariant effects == old(effects) + Posts(prs[..i], cs[..i], old(pr)).1
      {
        ghost var prBefore, effectsBefore := pr, effects;
        var e := VerifyUser(prs[i].authorAssociation, author);
        if e.None? {
          err := CommentByLabel(order, prs[i]);
        }
        PostsKept(regexp, order, prs, i, old(pr), old(effects), prBefore, effectsBefore, pr, effects);
        i := i + 1;
      }
      assert prs[..i] == prs && cs[..i] == cs;
      return None;
    }
  }

  /** One step of `handle`'s loop keeps its state equal to `Posts` of the pull requests seen. */
  lemma PostsKept(regexp: map<string, Pattern>, order: seq<string>, prs: seq<PullRequest>, i: nat,
                  pr0: int, effects0: seq<Effect>, prBefore: int, effectsBefore: seq<Effect>,
                  prAfter: int, effectsAfter: seq<Effect>)
    requires Named(regexp, order) && i < |prs|
    requires var cs := Comments(regexp, order, prs);
      && prBefore == Posts(prs[..i], cs[..i], pr0).0
      && effectsBefore == effects0 + Posts(prs[..i], cs[..i], pr0).1
    requires var c := FirstComment(regexp, order, prs[i].labels);
      && (!Allowed(prs[i].authorAssociation) || c == "" ==> prAfter == prBefore && effectsAfter == effectsBefore)
      && (Allowed(prs[i].authorAssociation) && c != "" ==>
            prAfter == prs[i].number && effectsAfter == effectsBefore + [Comment(prs[i].number, c)])
    ensures var cs := Comments(regexp, order, prs);
      && prAfter == Posts(prs[..i + 1], cs[..i + 1], pr0).0
      && effectsAfter == effects0 + Posts(prs[..i + 1], cs[..i + 1], pr0).1
  {
    PostsStep(prs, Comments(regexp, order, prs), i, pr0);
  }

  /** `Posts` one pull request further. */
  lemma PostsSnoc(prs: seq<PullRequest>, cs: seq<string>, p: PullRequest, c: string, pr0: int)
    requires |cs| == |prs|
    ensures var before := Posts(prs, cs, pr0);
      Posts(prs + [p], cs + [c], pr0) ==
        if !Allowed(p.authorAssociation) || c == "" then before
        else (p.number, before.1 + [Comment(p.number, c)])
  {
    assert (prs + [p])[..|prs|] == prs && (cs + [c])[..|cs|] == cs;
  }

  lemma PostsStep(prs: seq<PullRequest>, cs: seq<string>, i: nat, pr0: int)
    requires |cs| == |prs| && i < |prs|
    ensures var before := Posts(prs[..i], cs[..i], pr0);
      Posts(prs[..i + 1], cs[..i + 1], pr0) ==
        if !Allowed(prs[i].authorAssociation) || cs[i] == "" then before
        else (prs[i].number, before.1 + [Comment(prs[i].number, cs[i])])
  {
    assert prs[..i + 1][..i] == prs[..i] && cs[..i + 1][..i] == cs[..i];
  }

  // ---------------------------------------------------------------------------
  // The iteration order.

  /** When exactly one name in `order` matches, that name wins wherever it stands. */
  lemma {:induction false} FirstByOrderIsTheMatch(regexp: map<string, Pattern>, order: seq<string>, text: string, n: string)
    requires Named(regexp, order) && n in order && FirstMatch(regexp[n], text).Some?
    requires forall i :: 0 <= i < |order| && order[i] != n ==> FirstMatch(regexp[order[i]], text).None?
    ensures FirstByOrder(regexp, order, text) == Some((n, FirstMatch(regexp[n], text).value))
    decreases |order|
  {
    if order[0] != n {
      assert n in order[1..];
      assert forall i :: 1 <= i < |order| ==> order[i] == order[1..][i - 1];
      FirstByOrderIsTheMatch(regexp, order[1..], text, n);
    }
  }

  /** Two orders of the same names give the same result when at most one name matches. */
  lemma OrderIrrelevant(regexp: map<string, Pattern>, o1: seq<string>, o2: seq<string>, text: string)
    requires Named(regexp, o1) && Named(regexp, o2) && (forall n :: n in o1 <==> n in o2)
    requires forall i, j ::
      0 <= i < |o1| && 0 <= j < |o1| && FirstMatch(regexp[o1[i]], text).Some? && FirstMatch(regexp[o1[j]], text).Some?
      ==> o1[i] == o1[j]
    ensures FirstByOrder(regexp, o1, text) == FirstByOrder(regexp, o2, text)
  {
    FirstByOrderCharacterized(regexp, o1, text);
    FirstByOrderCharacterized(regexp, o2, text);
    var r := FirstByOrder(regexp, o1, text);
    if r.Some? {
      var n := r.value.0;
      forall i | 0 <= i < |o2| && o2[i] != n ensures FirstMatch(regexp[o2[i]], text).None? {
        assert o2[i] in o1;
      }
      FirstByOrderIsTheMatch(regexp, o1, text, n);
      FirstByOrderIsTheMatch(regexp, o2, text, n);
    } else {
      forall i | 0 <= i < |o2| ensures FirstMatch(regexp[o2[i]], text).None? {
        assert o2[i] in o1;
      }
    }
  }

  // ---------------------------------------------------------------------------
  // The three label patterns.

  lemma LabelPatternsShape()
    ensures LabelPatterns.Keys == {RunPerfName, RerunAllName, RerunName}
    ensures RunPerfName != RerunAllName && RunPerfName != RerunName && RerunAllName != RerunName
    ensures LabelPatterns[RunPerfName] == RunPerfLabel && LabelPatterns[RerunAllName] == RerunAllLabel
    ensures LabelPatterns[RerunName] == RerunLabel
    ensures WellFormed(RunPerfLabel) && Command.PlainKeyword(RunPerfLabel.keyword)
    ensures WellFormed(RerunAllLabel) && Command.PlainKeyword(RerunAllLabel.keyword)
    ensures WellFormed(RerunLabel) && Command.PlainKeyword(RerunLabel.keyword)
  {
    LabelNamesDiffer();
    LabelWordsAreWords(RunPerfLabel.words);
  }

  lemma LabelNamesDiffer()
    ensures RunPerfName != RerunAllName && RunPerfName != RerunName && RerunAllName != RerunName
  {
    assert RunPerfName[1] != RerunAllName[1] && RunPerfName[1] != RerunName[1];
    assert RerunAllName[10] != RerunName[9] && |RerunName| == 10;
  }

  lemma LabelWordsAreWords(words: seq<string>)
    requires words == ["master", "main", "latest"]
    ensures WordsWellFormed(words)
  {
    assert IsWord(words[0]) && IsWord(words[1]) && IsWord(words[2]);
  }

  /** "rerun-perf" followed by '-' is not a rerun-perf line: no argument starts with '-'. */
  lemma DashAfterRerun(text: string)
    requires |RerunLabel.keyword| < |text| && text[|RerunLabel.keyword|] == '-'
    ensures !Accepts(RerunLabel, text)
  {
    LabelPatternsShape();
    var a := Span(text, |RerunLabel.keyword|, IsSpace);
    assert a == |RerunLabel.keyword|;
    var t := Argument(RerunLabel, text);
    assert t == [] || t[0] == '-';
    RejectedArgument(RerunLabel.words, t);
  }

  /** No text is a line of two label patterns: run-perf and rerun-perf differ in their
    * second letter, and rerun-perf-all has a '-' where a rerun-perf argument would start. */
  lemma LabelPatternsDisjoint(text: string)
    ensures !(Accepts(RunPerfLabel, text) && Accepts(RerunAllLabel, text))
    ensures !(Accepts(RunPerfLabel, text) && Accepts(RerunLabel, text))
    ensures !(Accepts(RerunAllLabel, text) && Accepts(RerunLabel, text))
  {
    if FoldAt(text, 0, RunPerfLabel.keyword) {
      assert RunPerfLabel.keyword[1] == 'u' && FoldEq(text[0 + 1], RunPerfLabel.keyword[1]);
    }
    if FoldAt(text, 0, RerunAllLabel.keyword) {
      assert RerunAllLabel.keyword[1] == 'e' && FoldEq(text[0 + 1], RerunAllLabel.keyword[1]);
      assert RerunAllLabel.keyword[10] == '-' && FoldEq(text[0 + 10], RerunAllLabel.keyword[10]);
      DashAfterRerun(text);
    }
    if FoldAt(text, 0, RerunLabel.keyword) {
      assert RerunLabel.keyword[1] == 'e' && FoldEq(text[0 + 1], RerunLabel.keyword[1]);
    }
  }

  /** On a label without '\n' the comment is "/" and the whole label exactly when one
    * of the three patterns accepts it, and "" otherwise, in every iteration order. */
  lemma OneLineComment(order: seq<string>, text: string)
    requires IsOrder(LabelPatterns, order) && '\n' !in text
    ensures LabelComment(LabelPatterns, order, text) ==
      if Accepts(RunPerfLabel, text) || Accepts(RerunAllLabel, text) || Accepts(RerunLabel, text)
      then "/" + text else ""
  {
    LabelPatternsShape();
    LabelPatternsDisjoint(text);
    FirstMatchCharacterized(RunPerfLabel, text);
    FirstMatchCharacterized(RerunAllLabel, text);
    FirstMatchCharacterized(RerunLabel, text);
    assert forall i :: 0 <= i < |order| ==>
      order[i] == RunPerfName || order[i] == RerunAllName || order[i] == RerunName;
    FirstByOrderCharacterized(LabelPatterns, order, text);
    var n := if Accepts(RunPerfLabel, text) then RunPerfName
      else if Accepts(RerunAllLabel, text) then RerunAllName else RerunName;
    if Accepts(LabelPatterns[n], text) {
      FirstByOrderIsTheMatch(LabelPatterns, order, text, n);
      assert text[0..|text|] == text;
    }
  }

  /** On a label without '\n' the Go map's iteration order never changes the comment. */
  lemma CommentIsOrderFree(o1: seq<string>, o2: seq<string>, text: string)
    requires IsOrder(LabelPatterns, o1) && IsOrder(LabelPatterns, o2) && '\n' !in text
    ensures LabelComment(LabelPatterns, o1, text) == LabelComment(LabelPatterns, o2, text)
  {
    OneLineComment(o1, text);
    OneLineComment(o2, text);
  }

  /** The label `<keyword> <t>` is a line the pattern accepts when `t` is a valid argument. */
  lemma AcceptsCommand(p: Pattern, t: string)
    requires WellFormed(p) && Command.PlainKeyword(p.keyword) && IsWord(t) && ValidArgument(p, t)
    ensures '\n' !in p.keyword + " " + t && Accepts(p, p.keyword + " " + t)
  {
    Command.WordIsOneLine(t);
    Command.CommandLine(p, " ", t);
  }

  /** The labels of the plugin's table test become their slash commands. */
  lemma RunPerfMasterLabel(order: seq<string>, text: string)
    requires IsOrder(LabelPatterns, order) && text == "run-perf master"
    ensures LabelComment(LabelPatterns, order, text) == "/run-perf master"
  {
    assert "/" + text == "/run-perf master";
    LabelPatternsShape();
    assert FoldWord("master", RunPerfLabel.words[0]) && IsWord("master");
    assert text == RunPerfLabel.keyword + " " + "master";
    AcceptsCommand(RunPerfLabel, "master");
    OneLineComment(order, text);
  }

  lemma RerunMasterLabel(order: seq<string>, text: string)
    requires IsOrder(LabelPatterns, order) && text == "rerun-perf master"
    ensures LabelComment(LabelPatterns, order, text) == "/rerun-perf master"
  {
    assert "/" + text == "/rerun-perf master";
    LabelPatternsShape();
    assert FoldWord("master", RerunLabel.words[0]) && IsWord("master");
    assert text == RerunLabel.keyword + " " + "master";
    AcceptsCommand(RerunLabel, "master");
    OneLineComment(order, text);
  }

  lemma RunPerfLatestLabel(order: seq<string>, text: string)
    requires IsOrder(LabelPatterns, order) && text == "run-perf latest"
    ensures LabelComment(LabelPatterns, order, text) == "/run-perf latest"
  {
    assert "/" + text == "/run-perf latest";
    LabelPatternsShape();
    assert FoldWord("latest", RunPerfLabel.words[2]) && IsWord("latest");
    assert text == RunPerfLabel.keyword + " " + "latest";
    AcceptsCommand(RunPerfLabel, "latest");
    OneLineComment(order, text);
  }

  /** A version label keeps its suffix in the command. */
  lemma RunPerfVersionLabel(order: seq<string>, text: string)
    requires IsOrder(LabelPatterns, order) && text == "run-perf v0.4.11-nightly"
    ensures LabelComment(LabelPatterns, order, text) == "/run-perf v0.4.11-nightly"
  {
    NightlyLabelShape(text);
    NightlyLabelIsVersion("v0.4.11-nightly");
    VersionLabelComment(order, "v0.4.11-nightly", 2, 4, 7);
  }

  lemma NightlyLabelShape(text: string)
    requires text == "run-perf v0.4.11-nightly"
    ensures "/" + text == "/run-perf v0.4.11-nightly"
    ensures text == RunPerfLabel.keyword + " " + "v0.4.11-nightly"
  {
    assert RunPerfLabel.keyword == "run-perf";
  }

  lemma NightlyLabelIsVersion(t: string)
    requires t == "v0.4.11-nightly"
    ensures VersionSplit(t, 2, 4, 7)
  {
  }

  /** A run-perf label whose argument is a version is posted whole behind a "/",
    * suffix included, in every order. */
  lemma VersionLabelComment(order: seq<string>, t: string, a: nat, b: nat, c: nat)
    requires IsOrder(LabelPatterns, order) && VersionSplit(t, a, b, c)
    ensures var text := RunPerfLabel.keyword + " " + t;
      LabelComment(LabelPatterns, order, text) == "/" + text
  {
    LabelPatternsShape();
    assert IsWord(t) by {
      forall j | 0 <= j < |t| ensures IsNonSpace(t[j]) {
        assert j == 0 || j == a || j == b || IsDigit(t[j]) || IsNonSpace(t[j]);
      }
    }
    assert IsVersion(t);
    assert ValidArgument(RunPerfLabel, t);
    AcceptsCommand(RunPerfLabel, t);
    OneLineComment(order, RunPerfLabel.keyword + " " + t);
  }

  /** A label that is not a command gives no comment. */
  lemma ForeignLabel(order: seq<string>, text: string)
    requires IsOrder(LabelPatterns, order) && text == "foo-bar"
    ensures LabelComment(LabelPatterns, order, text) == ""
  {
    LabelPatternsShape();
    OneLineComment(order, text);
  }

  /** A leading space is refused by the anchor `^`. */
  lemma LeadingSpaceLabel(order: seq<string>, text: string)
    requires IsOrder(LabelPatterns, order) && text == " run-perf master"
    ensures LabelComment(LabelPatterns, order, text) == ""
  {
    LabelPatternsShape();
    assert !FoldEq(text[0], RunPerfLabel.keyword[0]) && !FoldEq(text[0], RerunLabel.keyword[0]);
    OneLineComment(order, text);
  }

  /** The comment copies the whole match, so trailing `\s` of the label stays in it. */
  lemma TrailingSpaceKept(order: seq<string>, text: string)
    requires IsOrder(LabelPatterns, order) && text == "run-perf main "
    ensures LabelComment(LabelPatterns, order, text) == "/run-perf main "
  {
    assert "/" + text == "/run-perf main ";
    LabelPatternsShape();
    assert FoldAt(text, 0, RunPerfLabel.keyword);
    ArgumentIs(RunPerfLabel, text, 9, 13);
    assert text[9..13] == "main" && FoldWord("main", RunPerfLabel.words[1]);
    OneLineComment(order, text);
  }

  /** A line read by `p`, with '/' put in front, reads the same to the pattern whose
    * keyword is `p`'s with '/' in front. */
  lemma SlashCommand(p: Pattern, q: Pattern, text: string)
    requires q.keyword == "/" + p.keyword && |p.keyword| <= |text|
    ensures FoldAt("/" + text, 0, q.keyword) <==> FoldAt(text, 0, p.keyword)
    ensures Argument(q, "/" + text) == Argument(p, text)
  {
    SlashKeyword(p.keyword, q.keyword, text);
    SlashArgument(p, q, text);
  }

  lemma SlashKeyword(keyword: string, slashed: string, text: string)
    requires slashed == "/" + keyword && |keyword| <= |text|
    ensures FoldAt("/" + text, 0, slashed) <==> FoldAt(text, 0, keyword)
  {
    var line := "/" + text;
    if FoldAt(line, 0, slashed) {
      forall k | 0 <= k < |keyword| ensures FoldEq(text[k], keyword[k]) {
        assert line[k + 1] == text[k] && slashed[k + 1] == keyword[k];
        assert FoldEq(line[0 + (k + 1)], slashed[k + 1]);
      }
    }
    if FoldAt(text, 0, keyword) {
      forall k | 0 <= k < |slashed| ensures FoldEq(line[k], slashed[k]) {
        if k > 0 {
          assert line[k] == text[k - 1] && slashed[k] == keyword[k - 1];
          assert FoldEq(text[0 + (k - 1)], keyword[k - 1]);
        }
      }
    }
  }

  lemma SlashArgument(p: Pattern, q: Pattern, text: string)
    requires q.keyword == "/" + p.keyword && |p.keyword| <= |text|
    ensures Argument(q, "/" + text) == Argument(p, text)
  {
    var a := Span(text, |p.keyword|, IsSpace);
    var b := StripEnd(text, a, |text|);
    SlashBounds(|p.keyword|, text, a, b);
    SlashSlice(text, a, b);
    ArgumentBetween(p, text, a, b);
    ArgumentBetween(q, "/" + text, a + 1, b + 1);
  }

  /** Putting '/' in front moves both ends of the argument one place on. */
  lemma SlashBounds(n: nat, text: string, a: nat, b: nat)
    requires n <= |text| && a == Span(text, n, IsSpace) && b == StripEnd(text, a, |text|)
    ensures Span("/" + text, n + 1, IsSpace) == a + 1
    ensures StripEnd("/" + text, a + 1, |text| + 1) == b + 1
  {
    SpanShift(text, n);
    StripEndShift(text, a, |text|);
  }

  /** `Argument` is the slice between the end of the leading spaces and the start of
    * the trailing ones. */
  lemma ArgumentBetween(p: Pattern, line: string, a: nat, b: nat)
    requires |p.keyword| <= |line| && a == Span(line, |p.keyword|, IsSpace)
    requires a <= |line| && b == StripEnd(line, a, |line|)
    ensures Argument(p, line) == line[a..b]
  {
  }

  lemma SlashSlice(text: string, a: nat, b: nat)
    requires a <= b <= |text|
    ensures ("/" + text)[a + 1..b + 1] == text[a..b]
  {
    var line := "/" + text;
    forall k | 0 <= k < b - a ensures line[a + 1..b + 1][k] == text[a..b][k] {
      assert line[a + 1 + k] == text[a + k];
    }
  }

  lemma {:induction false} SpanShift(text: string, i: nat)
    requires i <= |text|
    ensures Span("/" + text, i + 1, IsSpace) == Span(text, i, IsSpace) + 1
    decreases |text| - i
  {
    if i < |text| {
      assert ("/" + text)[i + 1] == text[i];
      if IsSpace(text[i]) {
        SpanShift(text, i + 1);
      }
    }
  }

  lemma {:induction false} StripEndShift(text: string, lo: nat, hi: nat)
    requires lo <= hi <= |text|
    ensures StripEnd("/" + text, lo + 1, hi + 1) == StripEnd(text, lo, hi) + 1
    decreases hi
  {
    if hi > lo {
      assert ("/" + text)[hi] == text[hi - 1];
      if IsSpace(text[hi - 1]) {
        StripEndShift(text, lo, hi - 1);
      }
    }
  }

  /** '/' in front of a one-line text that ends outside the cutset is a first line
    * `extractCommand` keeps whole. */
  lemma SlashLineExtracted(text: string)
    requires '\n' !in text && |text| > 0 && !Text.InCutset(text[|text| - 1])
    ensures Text.ExtractCommand("/" + text) == "/" + text
  {
    var line := "/" + text;
    assert line[1..] == text && line[|line| - 1] == text[|text| - 1];
    assert '\n' !in line;
    assert [] + line + [] == line;
    Text.ExtractCommandIgnoresPadding([], line, []);
  }

  /** The slash command made from a line `p` accepts is captured, as that line's
    * argument, by a pattern with the same words and the keyword `"/" + p.keyword`. */
  lemma SlashCapture(p: Pattern, q: Pattern, text: string)
    requires q.keyword == "/" + p.keyword && q.words == p.words && WellFormed(q)
    requires '\n' !in text && |text| > 0 && !Text.InCutset(text[|text| - 1]) && Accepts(p, text)
    ensures Command.Capture(q, "/" + text) == Some(Argument(p, text))
  {
    SlashCommand(p, q, text);
    SlashLineExtracted(text);
    Command.CaptureCharacterized(q, "/" + text);
  }

  /** The comment a one-line run-perf label produces is a command the run-perf comment
    * plugin takes up, with the reference the label names. */
  lemma LabelCommandReachesRunPerf(text: string)
    requires '\n' !in text && |text| > 0 && !Text.InCutset(text[|text| - 1]) && Accepts(RunPerfLabel, text)
    ensures Command.Capture(RunPerf.RunPerfPattern, "/" + text) == Some(Argument(RunPerfLabel, text))
  {
    RunPerf.RunPerfPatternIsPlain();
    assert RunPerf.RunPerfPattern.keyword == "/" + RunPerfLabel.keyword;
    SlashCapture(RunPerfLabel, RunPerf.RunPerfPattern, text);
  }

  // ---------------------------------------------------------------------------
  // What `handle` posts.

  /** A pull request whose author may not run commands can be dropped from the list
    * without changing anything `handle` does. */
  lemma {:induction false} OutsiderChangesNothing(before: seq<PullRequest>, outsider: PullRequest, after: seq<PullRequest>,
                                                  cs: seq<string>, c: string, ds: seq<string>, pr0: int)
    requires |cs| == |before| && |ds| == |after| && !Allowed(outsider.authorAssociation)
    ensures Posts(before + [outsider] + after, cs + [c] + ds, pr0) == Posts(before + after, cs + ds, pr0)
    decreases |after|
  {
    if after == [] {
      assert before + [outsider] + after == before + [outsider] && cs + [c] + ds == cs + [c];
      assert before + after == before && cs + ds == cs;
      PostsSnoc(before, cs, outsider, c, pr0);
    } else {
      var shorter, shorterDs := after[..|after| - 1], ds[..|ds| - 1];
      var p, d := after[|after| - 1], ds[|ds| - 1];
      assert after == shorter + [p] && ds == shorterDs + [d];
      assert before + [outsider] + after == (before + [outsider] + shorter) + [p];
      assert cs + [c] + ds == (cs + [c] + shorterDs) + [d];
      assert before + after == (before + shorter) + [p] && cs + ds == (cs + shorterDs) + [d];
      OutsiderChangesNothing(before, outsider, shorter, cs, c, shorterDs, pr0);
      PostsSnoc(before + [outsider] + shorter, cs + [c] + shorterDs, p, d, pr0);
      PostsSnoc(before + shorter, cs + shorterDs, p, d, pr0);
    }
  }

  /** Every comment `handle` posts is the non-empty label comment of one pull request whose
    * author may run commands, on that pull request; there are no more comments than pull
    * requests, and the client is left on the pull request of the last comment. */
  lemma {:induction false} PostsShape(prs: seq<PullRequest>, cs: seq<string>, pr0: int)
    requires |cs| == |prs|
    ensures var (pr, trace) := Posts(prs, cs, pr0);
      && |trace| <= |prs|
      && (forall k :: 0 <= k < |trace| ==>
            (exists j :: 0 <= j < |prs| && Allowed(prs[j].authorAssociation) && cs[j] != "" &&
              trace[k] == Comment(prs[j].number, cs[j])))
      && pr == (if trace == [] then pr0 else trace[|trace| - 1].pr)
    decreases |prs|
  {
    if prs != [] {
      var shorter, shorterCs := prs[..|prs| - 1], cs[..|cs| - 1];
      PostsShape(shorter, shorterCs, pr0);
      assert forall j :: 0 <= j < |shorter| ==> shorter[j] == prs[j] && shorterCs[j] == cs[j];
    }
  }
  /** The positions of the pull requests `handle` comments on: those whose author may run
    * commands and whose labels give a comment, in list order. */
  function CommentedIndices(prs: seq<PullRequest>, cs: seq<string>): (idx: seq<nat>)
    requires |cs| == |prs|
    ensures forall k :: 0 <= k < |idx| ==> idx[k] < |prs|
    decreases |prs|
  {
    if prs == [] then []
    else
      var rest := CommentedIndices(prs[..|prs| - 1], cs[..|cs| - 1]);
      if Allowed(prs[|prs| - 1].authorAssociation) && cs[|cs| - 1] != "" then rest + [|prs| - 1] else rest
  }

  /** Each position appears once, in increasing order, and exactly the allowed, commented
    * pull requests appear. */
  lemma {:induction false} CommentedIndicesCharacterized(prs: seq<PullRequest>, cs: seq<string>)
    requires |cs| == |prs|
    ensures var idx := CommentedIndices(prs, cs);
      && (forall k1, k2 :: 0 <= k1 < k2 < |idx| ==> idx[k1] < idx[k2])
      && (forall j :: 0 <= j < |prs| ==> (j in idx <==> Allowed(prs[j].authorAssociation) && cs[j] != ""))
    decreases |prs|
  {
    if prs != [] {
      var shorter, shorterCs := prs[..|prs| - 1], cs[..|cs| - 1];
      CommentedIndicesCharacterized(shorter, shorterCs);
      assert forall j :: 0 <= j < |shorter| ==> shorter[j] == prs[j] && shorterCs[j] == cs[j];
      var rest := CommentedIndices(shorter, shorterCs);
      assert |prs| - 1 !in rest;
    }
  }

  /** The comments `handle` posts are, in order, one per position of `CommentedIndices`:
    * the label comment of that pull request, on that pull request. */
  lemma {:induction false} PostsFollowIndices(prs: seq<PullRequest>, cs: seq<string>, pr0: int)
    requires |cs| == |prs|
    ensures var idx := CommentedIndices(prs, cs);
      var trace := Posts(prs, cs, pr0).1;
      && |trace| == |idx|
      && (forall k :: 0 <= k < |idx| ==> trace[k] == Comment(prs[idx[k]].number, cs[idx[k]]))
    decreases |prs|
  {
    if prs != [] {
      var shorter, shorterCs := prs[..|prs| - 1], cs[..|cs| - 1];
      PostsFollowIndices(shorter, shorterCs, pr0);
      assert forall j :: 0 <= j < |shorter| ==> shorter[j] == prs[j] && shorterCs[j] == cs[j];
    }
  }

  /** Every pull request whose author may run commands and whose labels give a comment
    * gets that comment. */
  lemma PostsComplete(prs: seq<PullRequest>, cs: seq<string>, pr0: int, j: nat)
    requires |cs| == |prs| && j < |prs| && Allowed(prs[j].authorAssociation) && cs[j] != ""
    ensures Comment(prs[j].number, cs[j]) in Posts(prs, cs, pr0).1
  {
    CommentedIndicesCharacterized(prs, cs);
    PostsFollowIndices(prs, cs, pr0);
    var idx := CommentedIndices(prs, cs);
    var k :| 0 <= k < |idx| && idx[k] == j;
    assert Posts(prs, cs, pr0).1[k] == Comment(prs[j].number, cs[j]);
  }

  /** No pull request is commented on twice: distinct comments of the trace come from
    * distinct positions of the list. */
  lemma PostsOncePerPullRequest(prs: seq<PullRequest>, cs: seq<string>, pr0: int)
    requires |cs| == |prs|
    ensures var trace := Posts(prs, cs, pr0).1;
      exists idx: seq<nat> ::
        && |idx| == |trace|
        && (forall k1, k2 :: 0 <= k1 < k2 < |idx| ==> idx[k1] < idx[k2])
        && (forall k :: 0 <= k < |idx| ==> idx[k] < |prs| && trace[k] == Comment(prs[idx[k]].number, cs[idx[k]]))
  {
    CommentedIndicesCharacterized(prs, cs);
    PostsFollowIndices(prs, cs, pr0);
    var idx := CommentedIndices(prs, cs);
    assert |idx| == |Posts(prs, cs, pr0).1|;
  }
}

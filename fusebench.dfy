/** The fusebench-local plugin (chatbots/plugins/fusebench_local.go):
  * `/fusebench-local <ref>` on a pull request records the branch to benchmark and
  * the payload describing it. It never asks for the newest tag, never dispatches,
  * and ignores a comment that does not match without any error; the only call it
  * makes to GitHub is the rejection comment to a refused author. */
module Fusebench {
  import opened Wrappers
  import opened Pattern
  import opened Github
  import Text
  import Command

  /** `(?mi)^/fusebench-local\s*(?P<RELEASE>master|main|current|v[0-9]+\.[0-9]+\.[0-9]+\S*)\s*$` */
  const FusebenchPattern := Pattern("/fusebench-local", ["master", "main", "current"])

  /** The switch in `handlerhelper`: an exact, case-sensitive comparison with "current". */
  function ResolveBranch(release: string, sha: string): string {
    if release == "current" then sha else release
  }

  /** What `handlerhelper` decides. */
  datatype Decision =
    | Ignore             // nothing matched: no error, nothing changed
    | Refuse(error: string)
    | Run(branch: string)

  function Helper(regexp: Pattern, gc: GithubClient, sha: string): Decision {
    match Command.Capture(regexp, gc.commentBody)
    case None => Ignore
    case Some(release) =>
      if !Allowed(gc.authorAssociation) then Refuse(RejectionMessage(gc.author))
      else Run(ResolveBranch(release, sha))
  }

  /** `payloads` after `extractPayload` has written its three entries. */
  function WithPayload(payloads: map<string, string>, branch: string, pr: int, sha: string): map<string, string> {
    payloads["BranchName" := branch]["PR_NUMBER" := Text.Itoa(pr)]["LAST_COMMIT_SHA" := sha]
  }

  /** Everything `handle` leaves behind: its error, the handler's fields, and the calls it made. */
  datatype Outcome = Outcome(err: Option<string>, branchName: string, payloads: map<string, string>, effects: seq<Effect>)

  /** What `handle` does to a handler whose fields hold `branchName` and `payloads`. */
  function Handled(regexp: Pattern, gc: GithubClient, branchName: string, payloads: map<string, string>): Outcome {
    var sha := LastCommitSHA(gc);
    match Helper(regexp, gc, sha)
    case Refuse(e) =>
      Outcome(Some(e), branchName, payloads, Reply(gc.pr, e, OrgGuard))
    case Ignore => Outcome(None, branchName, payloads, [])
    case Run(branch) => Outcome(None, branch, WithPayload(payloads, branch, gc.pr, sha), [])
  }

  /** A refusal is returned and offered to the org guard. */
  lemma HandledRefused(regexp: Pattern, gc: GithubClient, branchName: string, payloads: map<string, string>)
    requires Helper(regexp, gc, LastCommitSHA(gc)).Refuse?
    ensures var e := Helper(regexp, gc, LastCommitSHA(gc)).error;
      Handled(regexp, gc, branchName, payloads).effects == Reply(gc.pr, e, OrgGuard)
  {
  }

  /** Anything but a refusal makes no call to GitHub. */
  lemma HandledQuietly(regexp: Pattern, gc: GithubClient, branchName: string, payloads: map<string, string>)
    requires !Helper(regexp, gc, LastCommitSHA(gc)).Refuse?
    ensures Handled(regexp, gc, branchName, payloads).effects == []
  {
  }

  class Handler {
    /** the command pattern, `reg` for every handler `newOKToFusebench` builds */
    const regexp: Pattern
    const gc: GithubClient
    var branchName: string
    var payloads: map<string, string>
    /** the calls made to GitHub through `gc` so far, oldest first */
    var effects: seq<Effect>

    /** `newOKToFusebench` once the client is built: an empty branch and payload map. */
    constructor (gc: GithubClient)
      ensures regexp == FusebenchPattern && this.gc == gc
      ensures branchName == "" && payloads == map[] && effects == []
    {
      regexp := FusebenchPattern;
      this.gc := gc;
      branchName := "";
      payloads := map[];
      effects := [];
    }

    /** `PostComment` on the handler's PR. */
    method PostComment(body: string)
      modifies this
      ensures effects == old(effects) + [Comment(gc.pr, body)]
      ensures branchName == old(branchName) && payloads == old(payloads)
    {
      effects := effects + [Comment(gc.pr, body)];
    }

    /** `extractPayload`: the branch, the PR number and the head commit, written in place. */
    method ExtractPayload(sha: string)
      modifies this
      ensures payloads == WithPayload(old(payloads), branchName, gc.pr, sha)
      ensures branchName == old(branchName) && effects == old(effects)
    {
      payloads := payloads["BranchName" := branchName];
      payloads := payloads["PR_NUMBER" := Text.Itoa(gc.pr)];
      payloads := payloads["LAST_COMMIT_SHA" := sha];
    }

    /** The tail of `handlerhelper` once the command is accepted: the branch from the
      * captured release, then `extractPayload`. */
    method SelectBranch(release: string, sha: string)
      modifies this
      ensures branchName == ResolveBranch(release, sha)
      ensures payloads == WithPayload(old(payloads), branchName, gc.pr, sha)
      ensures effects == old(effects)
    {
      branchName := ResolveBranch(release, sha);
      ExtractPayload(sha);
    }

    /** `handlerhelper`: match (silently giving up when nothing matches), authorize,
      * resolve the branch, fill the payload. */
    method HandlerHelper(sha: string) returns (err: Option<string>)
      modifies this
      ensures match Helper(regexp, gc, sha)
        case Refuse(e) => err == Some(e) && branchName == old(branchName) && payloads == old(payloads)
        case Ignore => err.None? && branchName == old(branchName) && payloads == old(payloads)
        case Run(branch) =>
          err.None? && branchName == branch && payloads == WithPayload(old(payloads), branch, gc.pr, sha)
      ensures effects == old(effects)
    {
      var matches := Command.Capture(regexp, gc.commentBody);
      if matches.None? {
        return None;
      }
      var release := matches.value;
      err := VerifyUser(gc.authorAssociation, gc.author);
      if err.Some? {
        return err;
      }
      SelectBranch(release, sha);
      return None;
    }

    /** The error branch of `handle`: post the error when it contains `guard`. */
    method Report(e: string, guard: string)
      modifies this
      ensures effects == old(effects) + Reply(gc.pr, e, guard)
      ensures branchName == old(branchName) && payloads == old(payloads)
    {
      if Text.Contains(e, guard) {
        PostComment(e);
      }
    }

    /** `handle`. */
    method Handle() returns (err: Option<string>)
      modifies this
      ensures var o := Handled(regexp, gc, old(branchName), old(payloads));
        err == o.err && branchName == o.branchName && payloads == o.payloads && effects == old(effects) + o.effects
    {
      var lastSHA := LastCommitSHA(gc);
      ghost var decision := Helper(regexp, gc, lastSHA);
      ghost var branchName0, payloads0 := branchName, payloads;
      err := HandlerHelper(lastSHA);
      if err.Some? {
        assert decision == Refuse(err.value);
        HandledRefused(regexp, gc, branchName0, payloads0);
        Report(err.value, OrgGuard);
        return err;
      }
      HandledQuietly(regexp, gc, branchName0, payloads0);
    }
  }

  // ---------------------------------------------------------------------------
  // What `handlerhelper` and `handle` promise.

  /** `handlerhelper` takes a comment up exactly when its first line is
    * `/fusebench-local` and one valid reference; it then refuses an author who may
    * not run commands, and otherwise benchmarks the captured reference, "current"
    * standing for the PR head. Anything else is ignored without an error. */
  lemma HelperCharacterized(p: Pattern, gc: GithubClient, sha: string)
    requires WellFormed(p)
    ensures var line := Text.ExtractCommand(gc.commentBody);
      && (!Accepts(p, line) ==> Helper(p, gc, sha) == Ignore)
      && (Accepts(p, line) && !Allowed(gc.authorAssociation) ==> Helper(p, gc, sha) == Refuse(RejectionMessage(gc.author)))
      && (Accepts(p, line) && Allowed(gc.authorAssociation) ==>
            Helper(p, gc, sha) == Run(ResolveBranch(Argument(p, line), sha)))
  {
    Command.CaptureCharacterized(p, gc.commentBody);
  }

  /** `handle` never dispatches a workflow: at most one call, and that one a comment
    * carrying the rejection, which is made exactly when the author is refused. */
  lemma OnlyTheRejectionIsPosted(p: Pattern, gc: GithubClient, branchName: string, payloads: map<string, string>)
    requires WellFormed(p)
    ensures var o := Handled(p, gc, branchName, payloads);
      && (o.effects != [] <==>
            Accepts(p, Text.ExtractCommand(gc.commentBody)) && !Allowed(gc.authorAssociation))
      && (o.effects != [] ==> o.effects == [Comment(gc.pr, RejectionMessage(gc.author))])
  {
    HelperCharacterized(p, gc, LastCommitSHA(gc));
    if Helper(p, gc, LastCommitSHA(gc)).Refuse? {
      HandledRefused(p, gc, branchName, payloads);
      RejectionHasOrgGuard(gc.author);
    } else {
      HandledQuietly(p, gc, branchName, payloads);
    }
  }

  /** An accepted command from an allowed author ends without error and without any
    * call, leaving behind the branch and the payload `extractPayload` fills for it. */
  lemma AcceptedRecordsBranch(p: Pattern, gc: GithubClient, branchName: string, payloads: map<string, string>)
    requires WellFormed(p)
    requires Accepts(p, Text.ExtractCommand(gc.commentBody)) && Allowed(gc.authorAssociation)
    ensures var sha := LastCommitSHA(gc);
      var branch := ResolveBranch(Argument(p, Text.ExtractCommand(gc.commentBody)), sha);
      Handled(p, gc, branchName, payloads) == Outcome(None, branch, WithPayload(payloads, branch, gc.pr, sha), [])
  {
    HelperCharacterized(p, gc, LastCommitSHA(gc));
  }

  /** `extractPayload` sets its three entries and keeps every other one; the PR number it
    * writes reads back as the PR number. */
  lemma PayloadEntries(payloads: map<string, string>, branch: string, pr: int, sha: string)
    ensures var p := WithPayload(payloads, branch, pr, sha);
      && p.Keys == payloads.Keys + {"BranchName", "PR_NUMBER", "LAST_COMMIT_SHA"}
      && p["BranchName"] == branch && p["LAST_COMMIT_SHA"] == sha
      && (forall k :: k in payloads && k !in {"BranchName", "PR_NUMBER", "LAST_COMMIT_SHA"} ==> p[k] == payloads[k])
      && var d := p["PR_NUMBER"];
      && d != [] && (d[0] == '-' || Text.IsDecimalDigit(d[0]))
      && (forall k :: 1 <= k < |d| ==> Text.IsDecimalDigit(d[k]))
      && Text.DecimalValue(d) == pr
  {
    Text.ItoaRoundTrip(pr);
  }

  /** A comment that does not match leaves the handler as it was, without error. */
  lemma UnmatchedIsIgnored(p: Pattern, gc: GithubClient, branchName: string, payloads: map<string, string>)
    requires WellFormed(p)
    requires !Accepts(p, Text.ExtractCommand(gc.commentBody))
    ensures Handled(p, gc, branchName, payloads) == Outcome(None, branchName, payloads, [])
  {
    HelperCharacterized(p, gc, LastCommitSHA(gc));
  }

  // ---------------------------------------------------------------------------
  // Comments from the plugin's tests and their neighbours.

  /** The fusebench-local pattern meets what the generic capture lemmas ask of a pattern. */
  lemma FusebenchPatternIsPlain()
    ensures WellFormed(FusebenchPattern) && Command.PlainKeyword(FusebenchPattern.keyword)
  {
    var w := FusebenchPattern.words;
    assert IsWord(w[0]);
    assert IsWord(w[1]);
    assert IsWord(w[2]);
    assert Command.PlainKeyword(FusebenchPattern.keyword) by {
      var k := FusebenchPattern.keyword;
      assert forall j :: 0 <= j < |k| ==> k[j] != '\n';
    }
  }

  /** "current" padded with cutset characters benchmarks the PR head. */
  lemma PaddedCurrentIsTheHead(gc: GithubClient, sha: string)
    requires gc.commentBody == "\r\n/fusebench-local current\t" && Allowed(gc.authorAssociation)
    ensures Helper(FusebenchPattern, gc, sha) == Run(sha)
  {
    FusebenchPatternIsPlain();
    assert gc.commentBody == "\r\n" + (FusebenchPattern.keyword + " " + "current") + "\t" by {
      assert FusebenchPattern.keyword == "/fusebench-local";
    }
    assert FoldWord("current", FusebenchPattern.words[2]);
    Command.CaptureOfPaddedWord(FusebenchPattern, "current", 2);
  }

  /** A release version is benchmarked as written. */
  lemma VersionIsTheBranch(gc: GithubClient, sha: string)
    requires gc.commentBody == "/fusebench-local " + "v1.2.3-nightly" && Allowed(gc.authorAssociation)
    ensures Helper(FusebenchPattern, gc, sha) == Run("v1.2.3-nightly")
  {
    FusebenchPatternIsPlain();
    NightlyIsVersion("v1.2.3-nightly");
    Command.CaptureOfVersion(FusebenchPattern, gc.commentBody, "v1.2.3-nightly", 2, 4, 6);
  }

  /** The bare command is ignored. */
  lemma BareCommandIgnored(gc: GithubClient, sha: string)
    requires gc.commentBody == "/fusebench-local"
    ensures Helper(FusebenchPattern, gc, sha) == Ignore
  {
    FusebenchPatternIsPlain();
    assert gc.commentBody == [] + FusebenchPattern.keyword + [];
    Command.CaptureOfBareKeyword(FusebenchPattern, [], []);
  }

  /** Two references are ignored. */
  lemma TwoReferencesIgnored(gc: GithubClient, sha: string)
    requires gc.commentBody == "/fusebench-local " + "master main"
    ensures Helper(FusebenchPattern, gc, sha) == Ignore
  {
    FusebenchPatternIsPlain();
    Command.CaptureOfRejected(FusebenchPattern, gc.commentBody, " ", "master main");
  }

  /** "latest" is not a word fusebench-local knows: the comment is ignored. */
  lemma LatestIgnored(gc: GithubClient, sha: string)
    requires gc.commentBody == "/fusebench-local " + "latest"
    ensures Helper(FusebenchPattern, gc, sha) == Ignore
  {
    FusebenchPatternIsPlain();
    Command.CaptureOfRejected(FusebenchPattern, gc.commentBody, " ", "latest");
  }
}

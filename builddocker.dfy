/** The build-docker plugin (chatbots/plugins/builddocker/build-docker.go):
  * `/build-docker <ref>` on a pull request dispatches one docker image build for
  * the reference. Unlike run-perf it understands `current` (the PR head), posts
  * the rejection to a refused author, and makes a single dispatch. */
module BuildDocker {
  import opened Wrappers
  import opened Pattern
  import opened Github
  import Text
  import Command

  /** `(?mi)^/build-docker\s*(?P<RELEASE>master|main|latest|current|v[0-9]+\.[0-9]+\.[0-9]+\S*)\s*$` */
  const BuildDockerPattern := Pattern("/build-docker", ["master", "main", "latest", "current"])

  /** The switch in `handlerhelper`: exact, case-sensitive comparisons with "latest" and "current". */
  function ResolveRef(release: string, sha: string, lastTag: string): string {
    if release == "latest" then lastTag
    else if release == "current" then sha
    else release
  }

  /** What `handlerhelper` decides: the branch to build, or the error it returns. */
  function Helper(regexp: Pattern, gc: GithubClient, sha: string, lastTag: string): Result<string> {
    match Command.Capture(regexp, gc.commentBody)
    case None => Err(Command.NoMatchError)
    case Some(release) =>
      if !Allowed(gc.authorAssociation) then Err(RejectionMessage(gc.author))
      else Ok(ResolveRef(release, sha, lastTag))
  }

  /** `payloads` after `extractPayload` has written its two entries. */
  function WithPayload(payloads: map<string, string>, ref: string, sha: string): map<string, string> {
    payloads["REF" := ref]["LAST_COMMIT_SHA" := sha]
  }

  /** Everything `handle` leaves behind: its error, the handler's fields, and the calls it made. */
  datatype Outcome = Outcome(err: Option<string>, refBranch: string, payloads: map<string, string>, effects: seq<Effect>)

  /** What `handle` does to a handler whose fields hold `refBranch` and `payloads` and
    * whose client has made `n` dispatch calls. */
  function Handled(regexp: Pattern, gc: GithubClient, refBranch: string, payloads: map<string, string>, n: nat): Outcome {
    var sha := LastCommitSHA(gc);
    match LatestTag(gc)
    case Err(e) => Outcome(Some(e), refBranch, payloads, [])
    case Ok(tag) =>
      match Helper(regexp, gc, sha, tag)
      case Err(e) =>
        Outcome(Some(e), refBranch, payloads, Reply(gc.pr, e, OrgGuard))
      case Ok(ref) =>
        var p := WithPayload(payloads, ref, sha);
        Outcome(if n in gc.dispatchErrors then Some(gc.dispatchErrors[n]) else None, ref, p,
                [Dispatch("build_docker", p)])
  }

  class Handler {
    /** the command pattern, `reg` for every handler `newRunPerf` builds */
    const regexp: Pattern
    const gc: GithubClient
    var refBranch: string
    var payloads: map<string, string>
    /** the calls made to GitHub through `gc` so far, oldest first */
    var effects: seq<Effect>
    /** how many `CreateRepositoryDispatch` calls `gc` has made */
    var dispatched: nat

    /** `newRunPerf` once the client is built: an empty reference and payload map. */
    constructor (gc: GithubClient)
      ensures regexp == BuildDockerPattern && this.gc == gc
      ensures refBranch == "" && payloads == map[] && effects == [] && dispatched == 0
    {
      regexp := BuildDockerPattern;
      this.gc := gc;
      refBranch := "";
      payloads := map[];
      effects := [];
      dispatched := 0;
    }

    /** `CreateRepositoryDispatch` through the handler's client. */
    method CreateDispatch(eventType: string, payload: map<string, string>) returns (err: Option<string>)
      modifies this
      ensures err == (if old(dispatched) in gc.dispatchErrors then Some(gc.dispatchErrors[old(dispatched)]) else None)
      ensures effects == old(effects) + [Dispatch(eventType, payload)] && dispatched == old(dispatched) + 1
      ensures refBranch == old(refBranch) && payloads == old(payloads)
    {
      effects := effects + [Dispatch(eventType, payload)];
      err := if dispatched in gc.dispatchErrors then Some(gc.dispatchErrors[dispatched]) else None;
      dispatched := dispatched + 1;
    }

    /** `PostComment` on the handler's PR. */
    method PostComment(body: string)
      modifies this
      ensures effects == old(effects) + [Comment(gc.pr, body)] && dispatched == old(dispatched)
      ensures refBranch == old(refBranch) && payloads == old(payloads)
    {
      effects := effects + [Comment(gc.pr, body)];
    }

    /** `extractPayload`: the reference and the head commit, written in place. */
    method ExtractPayload(sha: string)
      modifies this
      ensures payloads == WithPayload(old(payloads), refBranch, sha)
      ensures refBranch == old(refBranch) && effects == old(effects) && dispatched == old(dispatched)
    {
      payloads := payloads["REF" := refBranch];
      payloads := payloads["LAST_COMMIT_SHA" := sha];
    }

    /** The tail of `handlerhelper` once the command is accepted: the branch from the
      * captured release, then `extractPayload`. */
    method SelectBranch(release: string, sha: string, lastTag: string)
      modifies this
      ensures refBranch == ResolveRef(release, sha, lastTag)
      ensures payloads == WithPayload(old(payloads), refBranch, sha)
      ensures effects == old(effects) && dispatched == old(dispatched)
    {
      refBranch := ResolveRef(release, sha, lastTag);
      ExtractPayload(sha);
    }

    /** `handlerhelper`: match, authorize, resolve the branch, fill the payload. */
    method HandlerHelper(sha: string, lastTag: string) returns (err: Option<string>)
      modifies this
      ensures match Helper(regexp, gc, sha, lastTag)
        case Err(e) => err == Some(e) && refBranch == old(refBranch) && payloads == old(payloads)
        case Ok(ref) => err.None? && refBranch == ref && payloads == WithPayload(old(payloads), ref, sha)
      ensures effects == old(effects) && dispatched == old(dispatched)
    {
      var matches := Command.Capture(regexp, gc.commentBody);
      if matches.None? {
        return Some(Command.NoMatchError);
      }
      var release := matches.value;
      err := VerifyUser(gc.authorAssociation, gc.author);
      if err.Some? {
        return err;
      }
      SelectBranch(release, sha, lastTag);
      return None;
    }

    /** The error branch of `handle`: post the error when it contains `guard`. */
    method Report(e: string, guard: string)
      modifies this
      ensures effects == old(effects) + Reply(gc.pr, e, guard) && dispatched == old(dispatched)
      ensures refBranch == old(refBranch) && payloads == old(payloads)
    {
      if Text.Contains(e, guard) {
        PostComment(e);
      }
    }

    /** `handle`. */
    method Handle() returns (err: Option<string>)
      modifies this
      ensures var o := Handled(regexp, gc, old(refBranch), old(payloads), old(dispatched));
        err == o.err && refBranch == o.refBranch && payloads == o.payloads && effects == old(effects) + o.effects
    {
      var lastSHA := LastCommitSHA(gc);
      var lastTag := LatestTag(gc);
      if lastTag.Err? {
        return Some(lastTag.error);
      }
      err := HandlerHelper(lastSHA, lastTag.value);
      if err.Some? {
        Report(err.value, OrgGuard);
        return err;
      }
      err := CreateDispatch("build_docker", payloads);
    }
  }

  // ---------------------------------------------------------------------------
  // What `handlerhelper` and `handle` promise.

  /** `handlerhelper` takes a comment up exactly when its first line is `/build-docker`
    * and one valid reference and the author may run commands; an unmatched comment is
    * refused before the author is looked at. "latest" stands for the newest tag and
    * "current" for the PR head. */
  lemma HelperCharacterized(p: Pattern, gc: GithubClient, sha: string, lastTag: string)
    requires WellFormed(p)
    ensures var line := Text.ExtractCommand(gc.commentBody);
      && (!Accepts(p, line) ==> Helper(p, gc, sha, lastTag) == Err(Command.NoMatchError))
      && (Accepts(p, line) && !Allowed(gc.authorAssociation) ==>
            Helper(p, gc, sha, lastTag) == Err(RejectionMessage(gc.author)))
      && (Accepts(p, line) && Allowed(gc.authorAssociation) ==>
            Helper(p, gc, sha, lastTag) == Ok(ResolveRef(Argument(p, line), sha, lastTag)))
  {
    Command.CaptureCharacterized(p, gc.commentBody);
  }

  /** The no-match error is too short to hold the guard text. */
  lemma NoMatchLacksOrgGuard()
    ensures !Text.Contains(Command.NoMatchError, OrgGuard)
  {
    assert |Command.NoMatchError| < |OrgGuard|;
  }

  /** An unmatched comment is answered with the no-match error and nothing else: no
    * comment, no dispatch, no change to the handler. */
  lemma UnmatchedIsQuiet(p: Pattern, gc: GithubClient, refBranch: string, payloads: map<string, string>, n: nat)
    requires WellFormed(p)
    requires LatestTag(gc).Ok? && !Accepts(p, Text.ExtractCommand(gc.commentBody))
    ensures Handled(p, gc, refBranch, payloads, n) == Outcome(Some(Command.NoMatchError), refBranch, payloads, [])
  {
    HelperCharacterized(p, gc, LastCommitSHA(gc), LatestTag(gc).value);
    NoMatchLacksOrgGuard();
  }

  /** A refused author is told: the rejection holds the guard `handle` looks for, so it
    * is posted on the PR, and nothing is dispatched. */
  lemma RefusedAuthorIsTold(p: Pattern, gc: GithubClient, refBranch: string, payloads: map<string, string>, n: nat)
    requires WellFormed(p)
    requires LatestTag(gc).Ok? && Accepts(p, Text.ExtractCommand(gc.commentBody))
    requires !Allowed(gc.authorAssociation)
    ensures var e := RejectionMessage(gc.author);
      Handled(p, gc, refBranch, payloads, n) == Outcome(Some(e), refBranch, payloads, [Comment(gc.pr, e)])
  {
    HelperCharacterized(p, gc, LastCommitSHA(gc), LatestTag(gc).value);
    RejectionHasOrgGuard(gc.author);
  }

  /** An accepted command from an allowed author makes exactly one call: the
    * `build_docker` dispatch whose payload names the branch and the head commit. */
  lemma AcceptedBuildsOnce(p: Pattern, gc: GithubClient, refBranch: string, payloads: map<string, string>, n: nat)
    requires WellFormed(p)
    requires LatestTag(gc).Ok? && Accepts(p, Text.ExtractCommand(gc.commentBody))
    requires Allowed(gc.authorAssociation)
    ensures var sha := LastCommitSHA(gc);
      var ref := ResolveRef(Argument(p, Text.ExtractCommand(gc.commentBody)), sha, LatestTag(gc).value);
      var o := Handled(p, gc, refBranch, payloads, n);
      && o.refBranch == ref
      && o.payloads == payloads["REF" := ref]["LAST_COMMIT_SHA" := sha]
      && o.effects == [Dispatch("build_docker", o.payloads)]
      && (o.err.None? <==> n !in gc.dispatchErrors)
  {
    HelperCharacterized(p, gc, LastCommitSHA(gc), LatestTag(gc).value);
  }

  /** A failing tag lookup ends `handle` before the comment is read: even a valid
    * command from an allowed author then changes nothing and calls nothing. */
  lemma TagErrorComesFirst(p: Pattern, gc: GithubClient, refBranch: string, payloads: map<string, string>, n: nat)
    requires LatestTag(gc).Err?
    ensures Handled(p, gc, refBranch, payloads, n) == Outcome(Some(LatestTag(gc).error), refBranch, payloads, [])
  {
  }

  // ---------------------------------------------------------------------------
  // Comments from the plugin's tests.

  /** The build-docker pattern meets what the generic capture lemmas ask of a pattern. */
  lemma BuildDockerPatternIsPlain()
    ensures WellFormed(BuildDockerPattern) && Command.PlainKeyword(BuildDockerPattern.keyword)
  {
    var w := BuildDockerPattern.words;
    assert IsWord(w[0]);
    assert IsWord(w[1]);
    assert IsWord(w[2]);
    assert IsWord(w[3]);
    assert Command.PlainKeyword(BuildDockerPattern.keyword) by {
      var k := BuildDockerPattern.keyword;
      assert forall j :: 0 <= j < |k| ==> k[j] != '\n';
    }
  }

  /** "current" builds the PR head, and the payload names it twice. */
  lemma CurrentBuildsTheHead(gc: GithubClient, sha: string, lastTag: string)
    requires gc.commentBody == "/build-docker current" && Allowed(gc.authorAssociation)
    ensures Helper(BuildDockerPattern, gc, sha, lastTag) == Ok(sha)
    ensures WithPayload(map[], sha, sha) == map["REF" := sha, "LAST_COMMIT_SHA" := sha]
  {
    CurrentCaptured(gc.commentBody);
  }

  /** The comment of the test case above is captured as "current". */
  lemma CurrentCaptured(body: string)
    requires body == "/build-docker current"
    ensures Command.Capture(BuildDockerPattern, body) == Some("current")
  {
    BuildDockerPatternIsPlain();
    assert body == BuildDockerPattern.keyword + " " + "current";
    assert FoldWord("current", BuildDockerPattern.words[3]);
    Command.CaptureOfWord(BuildDockerPattern, body, "current", 3);
  }

  /** "latest" padded with cutset characters builds the newest tag. */
  lemma PaddedLatestBuildsNewestTag(gc: GithubClient, sha: string, lastTag: string)
    requires gc.commentBody == "\r\n/build-docker latest\t" && Allowed(gc.authorAssociation)
    ensures Helper(BuildDockerPattern, gc, sha, lastTag) == Ok(lastTag)
  {
    PaddedLatestCaptured(gc.commentBody);
  }

  lemma PaddedLatestCaptured(body: string)
    requires body == "\r\n/build-docker latest\t"
    ensures Command.Capture(BuildDockerPattern, body) == Some("latest")
  {
    BuildDockerPatternIsPlain();
    assert body == "\r\n" + (BuildDockerPattern.keyword + " " + "latest") + "\t" by {
      assert BuildDockerPattern.keyword == "/build-docker";
    }
    assert FoldWord("latest", BuildDockerPattern.words[2]);
    Command.CaptureOfPaddedWord(BuildDockerPattern, "latest", 2);
  }

  /** The bare command is refused as unmatched. */
  lemma BareCommandUnmatched(gc: GithubClient, sha: string, lastTag: string)
    requires gc.commentBody == "/build-docker"
    ensures Helper(BuildDockerPattern, gc, sha, lastTag) == Err(Command.NoMatchError)
  {
    BuildDockerPatternIsPlain();
    assert gc.commentBody == [] + BuildDockerPattern.keyword + [];
    Command.CaptureOfBareKeyword(BuildDockerPattern, [], []);
  }

  /** A command glued to its arguments is refused as unmatched. */
  lemma GluedCommandUnmatched(gc: GithubClient, sha: string, lastTag: string)
    requires gc.commentBody == "/build-docker" + "master main"
    ensures Helper(BuildDockerPattern, gc, sha, lastTag) == Err(Command.NoMatchError)
  {
    BuildDockerPatternIsPlain();
    Command.CaptureOfRejected(BuildDockerPattern, gc.commentBody, [], "master main");
  }

  /** An argument that is no reference is refused as unmatched. */
  lemma UnknownArgumentUnmatched(gc: GithubClient, sha: string, lastTag: string)
    requires gc.commentBody == "/build-docker " + "Wubba-Lubba-Dub-Dub"
    ensures Helper(BuildDockerPattern, gc, sha, lastTag) == Err(Command.NoMatchError)
  {
    var t := "Wubba-Lubba-Dub-Dub";
    BuildDockerPatternIsPlain();
    assert |t| == 19 && t[0] == 'W';
    Command.CaptureOfRejected(BuildDockerPattern, gc.commentBody, " ", t);
  }

  /** Several words are refused as unmatched. */
  lemma SeveralWordsUnmatched(gc: GithubClient, sha: string, lastTag: string)
    requires gc.commentBody == "/build-docker " + "Wubba Lubba Dub Dub"
    ensures Helper(BuildDockerPattern, gc, sha, lastTag) == Err(Command.NoMatchError)
  {
    var t := "Wubba Lubba Dub Dub";
    BuildDockerPatternIsPlain();
    assert |t| == 19 && t[0] == 'W';
    Command.CaptureOfRejected(BuildDockerPattern, gc.commentBody, " ", t);
  }
}

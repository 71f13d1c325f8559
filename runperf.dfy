/** The run-perf plugin (chatbots/plugins/runperf/run-perf.go): `/run-perf <ref>`
  * on a pull request builds docker images for the PR head and for the reference,
  * waits for both, and dispatches the performance workflow.
  *
  * The handler's fields change step by step, so it is a class; `Helper` and
  * `Handled` say what one call of `handlerhelper` and `handle` decides, and the
  * lemmas below state what the source promises about those decisions. */
module RunPerf {
  import opened Wrappers
  import opened Pattern
  import opened Github
  import Text
  import Command
  import Meta

  /** `(?mi)^/run-perf\s*(?P<RELEASE>master|main|latest|v[0-9]+\.[0-9]+\.[0-9]+\S*)\s*$` */
  const RunPerfPattern := Pattern("/run-perf", ["master", "main", "latest"])

  /** The switch in `handlerhelper`: an exact, case-sensitive comparison with "latest". */
  function ResolveRef(release: string, lastTag: string): string {
    if release == "latest" then lastTag else release
  }

  /** What `handlerhelper` decides: the reference branch, or the error it returns. */
  function Helper(regexp: Pattern, gc: GithubClient, lastTag: string): Result<string> {
    match Command.Capture(regexp, gc.commentBody)
    case None => Err(Command.NoMatchError)
    case Some(release) =>
      if !Allowed(gc.authorAssociation) then Err(RejectionMessage(gc.author))
      else Ok(ResolveRef(release, lastTag))
  }

  /** `payloads` after `extractPayload` has written its six entries, in the order it writes them. */
  function WithPayload(payloads: map<string, string>, current: string, pr: int, sha: string, ref: string,
                       start: string, uuid: string): map<string, string> {
    payloads["CURRENT_BRANCH" := current]["PR_NUMBER" := Text.Itoa(pr)]["LAST_COMMIT_SHA" := sha]
      ["REF_BRANCH" := ref]["START_TIME" := start]["UUID" := uuid]
  }

  const PayloadKeys: set<string> := {"CURRENT_BRANCH", "PR_NUMBER", "LAST_COMMIT_SHA", "REF_BRANCH", "START_TIME", "UUID"}

  /** The client payload of a build-docker dispatch for one branch. */
  function BuildRequest(ref: string, payloads: map<string, string>, uuid: string): map<string, string> {
    map["REF" := ref, "PR_NUMBER" := Get(payloads, "PR_NUMBER"),
        "LAST_COMMIT_SHA" := Get(payloads, "LAST_COMMIT_SHA"), "UUID" := uuid]
  }

  /** The key `checkStatus` reads: dispatch name, owner, repository, PR, commit, uuid. */
  function StatusKey(dispatchName: string, org: string, repo: string, pr: string, commit: string, uuid: string): (key: seq<string>)
    ensures |key| == 6 && key[0] == dispatchName && key[1] == org && key[2] == repo
    ensures key[3] == pr && key[4] == commit && key[5] == uuid
  {
    [dispatchName, org, repo, pr, commit, uuid]
  }

  /** The key both `waitToReady` polls read; the branch they are started for plays no part in it. */
  function PollKey(gc: GithubClient, payloads: map<string, string>, uuid: string): (key: seq<string>)
    ensures |key| == 6 && key[0] == "build-docker" && key[1] == gc.owner && key[2] == gc.repo
    ensures key[3] == Get(payloads, "PR_NUMBER") && key[4] == Get(payloads, "LAST_COMMIT_SHA") && key[5] == uuid
  {
    StatusKey("build-docker", gc.owner, gc.repo, Get(payloads, "PR_NUMBER"), Get(payloads, "LAST_COMMIT_SHA"), uuid)
  }

  /** Different dispatches, repositories, pull requests, commits or runs never share a
    * status key, so a poll reads only the result of the build it waits for. */
  lemma StatusKeyInjective(d1: string, o1: string, r1: string, p1: string, c1: string, u1: string,
                           d2: string, o2: string, r2: string, p2: string, c2: string, u2: string)
    requires StatusKey(d1, o1, r1, p1, c1, u1) == StatusKey(d2, o2, r2, p2, c2, u2)
    ensures d1 == d2 && o1 == o2 && r1 == r2 && p1 == p2 && c1 == c2 && u1 == u2
  {
    var k := StatusKey(d1, o1, r1, p1, c1, u1);
    assert k[0] == d2 && k[1] == o2 && k[2] == r2 && k[3] == p2 && k[4] == c2 && k[5] == u2;
  }


  /** `checkStatus`: the stored status, "NOT_FOUND" for a missing key, or the store's error. */
  function CheckStatus(store: Meta.MetaStore, dispatchName: string, org: string, repo: string, pr: string,
                       commit: string, uuid: string): (r: (string, Option<string>))
    ensures var read := Meta.GetCopy(store, StatusKey(dispatchName, org, repo, pr, commit, uuid));
      && (read.KeyNotFound? ==> r == ("NOT_FOUND", None))
      && (read.Found? ==> r == (Meta.BytesToString(read.value), None))
      && (read.ReadError? ==> r == ("", Some(read.message)))
    ensures r.1.Some? ==> r.0 == ""
  {
    match Meta.GetCopy(store, StatusKey(dispatchName, org, repo, pr, commit, uuid))
    case KeyNotFound => ("NOT_FOUND", None)
    case ReadError(e) => ("", Some(e))
    case Found(b) => (Meta.BytesToString(b), None)
  }

  /** The condition a poll waits for. */
  predicate Ready(status: (string, Option<string>)) {
    status.1.None? && status.0 == "SUCCESS"
  }

  /** Everything `handle` leaves behind: its error, the handler's fields, and the calls it made. */
  datatype Outcome = Outcome(err: Option<string>, refBranch: string, currentBranch: string,
                             payloads: map<string, string>, effects: seq<Effect>)

  /** The dispatches `handle` makes once `handlerhelper` has filled `payloads`, the
    * first of them being the client's n-th dispatch call. */
  function Dispatches(gc: GithubClient, payloads: map<string, string>, uuid: string, n: nat): (Option<string>, seq<Effect>) {
    var poll := StartPoll(PollKey(gc, payloads, uuid));
    var current := Dispatch("build-docker", BuildRequest(Get(payloads, "CURRENT_BRANCH"), payloads, uuid));
    var reference := Dispatch("build-docker", BuildRequest(Get(payloads, "REF_BRANCH"), payloads, uuid));
    var perf := Dispatch("run-perf", payloads);
    if n in gc.dispatchErrors then (Some(gc.dispatchErrors[n]), [current])
    else if n + 1 in gc.dispatchErrors then (Some(gc.dispatchErrors[n + 1]), [current, poll, reference])
    else if n + 2 in gc.dispatchErrors then (Some(gc.dispatchErrors[n + 2]), [current, poll, reference, poll, perf])
    else (None, [current, poll, reference, poll, perf])
  }

  /** What `handle` does to a handler whose fields hold `refBranch`, `currentBranch`,
    * `payloads` and whose client has made `n` dispatch calls, given the uuid and
    * start time it draws. */
  function Handled(regexp: Pattern, gc: GithubClient, refBranch: string, currentBranch: string, payloads: map<string, string>,
                   n: nat, uuid: string, start: string): Outcome {
    var sha := LastCommitSHA(gc);
    match LatestTag(gc)
    case Err(e) => Outcome(Some(e), refBranch, currentBranch, payloads, [])
    case Ok(tag) =>
      match Helper(regexp, gc, tag)
      case Err(e) =>
        Outcome(Some(e), refBranch, currentBranch, payloads, Reply(gc.pr, e, OwnerGuard))
      case Ok(ref) =>
        var p := WithPayload(payloads, sha, gc.pr, sha, ref, start, uuid);
        var (err, effects) := Dispatches(gc, p, uuid, n);
        Outcome(err, ref, sha, p, effects)
  }

  class Handler {
    /** the command pattern, `reg` for every handler `newRunPerf` builds */
    const regexp: Pattern
    const gc: GithubClient
    const metaStore: Meta.MetaStore
    var refBranch: string
    var currentBranch: string
    var payloads: map<string, string>
    /** the calls made to GitHub through `gc` so far, oldest first */
    var effects: seq<Effect>
    /** how many `CreateRepositoryDispatch` calls `gc` has made */
    var dispatched: nat

    /** `newRunPerf` once the client is built: empty fields and an empty payload map. */
    constructor (gc: GithubClient, metaStore: Meta.MetaStore)
      ensures regexp == RunPerfPattern && this.gc == gc && this.metaStore == metaStore
      ensures refBranch == "" && currentBranch == "" && payloads == map[]
      ensures effects == [] && dispatched == 0
    {
      regexp := RunPerfPattern;
      this.gc := gc;
      this.metaStore := metaStore;
      refBranch := "";
      currentBranch := "";
      payloads := map[];
      effects := [];
      dispatched := 0;
    }

    /** `CreateRepositoryDispatch` through the handler's client. */
    method CreateDispatch(eventType: string, payload: map<string, string>) returns (err: Option<string>)
      modifies this
      ensures err == (if old(dispatched) in gc.dispatchErrors then Some(gc.dispatchErrors[old(dispatched)]) else None)
      ensures effects == old(effects) + [Dispatch(eventType, payload)] && dispatched == old(dispatched) + 1
      ensures refBranch == old(refBranch) && currentBranch == old(currentBranch) && payloads == old(payloads)
    {
      effects := effects + [Dispatch(eventType, payload)];
      err := if dispatched in gc.dispatchErrors then Some(gc.dispatchErrors[dispatched]) else None;
      dispatched := dispatched + 1;
    }

    /** `PostComment` on the handler's PR. */
    method PostComment(body: string)
      modifies this
      ensures effects == old(effects) + [Comment(gc.pr, body)] && dispatched == old(dispatched)
      ensures refBranch == old(refBranch) && currentBranch == old(currentBranch) && payloads == old(payloads)
    {
      effects := effects + [Comment(gc.pr, body)];
    }

    /** `waitToReady`, started in the background: it polls the build status under
      * `PollKey`, and its outcome is only logged. */
    method WaitToReady(branch: string, id: string)
      modifies this
      ensures effects == old(effects) + [StartPoll(PollKey(gc, payloads, id))] && dispatched == old(dispatched)
      ensures refBranch == old(refBranch) && currentBranch == old(currentBranch) && payloads == old(payloads)
    {
      effects := effects + [StartPoll(PollKey(gc, payloads, id))];
    }

    /** `extractPayload`: writes the six entries into the payload map in place. */
    method ExtractPayload(sha: string, start: string, uuid: string)
      modifies this
      ensures payloads == WithPayload(old(payloads), currentBranch, gc.pr, sha, refBranch, start, uuid)
      ensures refBranch == old(refBranch) && currentBranch == old(currentBranch)
      ensures effects == old(effects) && dispatched == old(dispatched)
    {
      payloads := payloads["CURRENT_BRANCH" := currentBranch];
      payloads := payloads["PR_NUMBER" := Text.Itoa(gc.pr)];
      payloads := payloads["LAST_COMMIT_SHA" := sha];
      payloads := payloads["REF_BRANCH" := refBranch];
      payloads := payloads["START_TIME" := start];
      payloads := payloads["UUID" := uuid];
    }

    /** `handlerhelper`: match, authorize, resolve the reference, fill the payload. */
    method HandlerHelper(sha: string, lastTag: string, start: string, uuid: string) returns (err: Option<string>)
      modifies this
      ensures match Helper(regexp, gc, lastTag)
        case Err(e) =>
          err == Some(e) && refBranch == old(refBranch) && currentBranch == old(currentBranch) && payloads == old(payloads)
        case Ok(ref) =>
          err.None? && refBranch == ref && currentBranch == sha
          && payloads == WithPayload(old(payloads), sha, gc.pr, sha, ref, start, uuid)
      ensures effects == old(effects) && dispatched == old(dispatched)
    {
      var matches := Command.Capture(regexp, gc.commentBody);
      if matches.None? {
        return Some(Command.NoMatchError);
      }
      var release := matches.value;
      err := VerifyUser(gc.authorAssociation, gc.author);
      if err.Some? {
        return err;
      }
      SelectBranches(release, sha, lastTag, start, uuid);
      return None;
    }

    /** The tail of `handlerhelper` once the command is accepted: the reference
      * branch from the captured release, the current branch from the head commit,
      * then `extractPayload`. */
    method SelectBranches(release: string, sha: string, lastTag: string, start: string, uuid: string)
      modifies this
      ensures refBranch == ResolveRef(release, lastTag) && currentBranch == sha
      ensures payloads == WithPayload(old(payloads), sha, gc.pr, sha, refBranch, start, uuid)
      ensures effects == old(effects) && dispatched == old(dispatched)
    {
      refBranch := ResolveRef(release, lastTag);
      currentBranch := sha;
      ExtractPayload(sha, start, uuid);
    }

    /** The error branch of `handle`: post the error when it contains `guard`. */
    method Report(e: string, guard: string)
      modifies this
      ensures effects == old(effects) + Reply(gc.pr, e, guard) && dispatched == old(dispatched)
      ensures refBranch == old(refBranch) && currentBranch == old(currentBranch) && payloads == old(payloads)
    {
      if Text.Contains(e, guard) {
        PostComment(e);
      }
    }

    /** `handle`, with the fresh uuid and the start time as inputs. */
    method Handle(uuid: string, start: string) returns (err: Option<string>)
      modifies this
      ensures var o := Handled(regexp, gc, old(refBranch), old(currentBranch), old(payloads), old(dispatched), uuid, start);
        err == o.err && refBranch == o.refBranch && currentBranch == o.currentBranch
        && payloads == o.payloads && effects == old(effects) + o.effects
    {
      var lastSHA := LastCommitSHA(gc);
      var lastTag := LatestTag(gc);
      if lastTag.Err? {
        return Some(lastTag.error);
      }
      err := HandlerHelper(lastSHA, lastTag.value, start, uuid);
      if err.Some? {
        Report(err.value, OwnerGuard);
        return err;
      }
      err := DispatchBuilds(uuid);
    }

    /** The second half of `handle`: build the docker images of the current and the
      * reference branch, start a poll after each, then dispatch the performance run;
      * the first failing dispatch ends it. */
    method DispatchBuilds(uuid: string) returns (err: Option<string>)
      modifies this
      ensures var (e, trace) := Dispatches(gc, payloads, uuid, old(dispatched));
        err == e && effects == old(effects) + trace
      ensures refBranch == old(refBranch) && currentBranch == old(currentBranch) && payloads == old(payloads)
    {
      err := CreateDispatch("build-docker", BuildRequest(Get(payloads, "CURRENT_BRANCH"), payloads, uuid));
      if err.Some? {
        return err;
      }
      WaitToReady(Get(payloads, "CURRENT_BRANCH"), uuid);
      err := CreateDispatch("build-docker", BuildRequest(Get(payloads, "REF_BRANCH"), payloads, uuid));
      if err.Some? {
        return err;
      }
      WaitToReady(Get(payloads, "REF_BRANCH"), uuid);
      err := CreateDispatch("run-perf", payloads);
    }
  }

  // ---------------------------------------------------------------------------
  // What `handlerhelper` and `handle` promise.

  /** `handlerhelper` takes a comment up exactly when its first line is `/run-perf` and
    * one valid reference and the author may run commands. The checks come in the
    * source's order: an unmatched comment is refused before the author is looked at.
    * The reference is the captured text, with "latest" standing for the newest tag. */
  lemma HelperCharacterized(p: Pattern, gc: GithubClient, lastTag: string)
    requires WellFormed(p)
    ensures var line := Text.ExtractCommand(gc.commentBody);
      && (!Accepts(p, line) ==> Helper(p, gc, lastTag) == Err(Command.NoMatchError))
      && (Accepts(p, line) && !Allowed(gc.authorAssociation) ==>
            Helper(p, gc, lastTag) == Err(RejectionMessage(gc.author)))
      && (Accepts(p, line) && Allowed(gc.authorAssociation) ==>
            Helper(p, gc, lastTag) == Ok(ResolveRef(Argument(p, line), lastTag)))
  {
    Command.CaptureCharacterized(p, gc.commentBody);
  }

  /** A captured reference from an allowed author is resolved. */
  lemma CapturedHelper(p: Pattern, gc: GithubClient, lastTag: string, t: string)
    requires Command.Capture(p, gc.commentBody) == Some(t) && Allowed(gc.authorAssociation)
    ensures Helper(p, gc, lastTag) == Ok(ResolveRef(t, lastTag))
  {
  }

  /** The no-match error is too short to hold the guard text. */
  lemma NoMatchLacksOwnerGuard()
    ensures !Text.Contains(Command.NoMatchError, OwnerGuard)
  {
    assert |Command.NoMatchError| < |OwnerGuard|;
  }

  /** `handle` makes no call to GitHub unless the newest tag is known, the command is
    * accepted and the author is allowed: in particular a refused author is never told,
    * because the rejection text lacks the "is not an owner" guard `handle` looks for. */
  lemma NoEffectsUnlessAccepted(p: Pattern, gc: GithubClient, refBranch: string, currentBranch: string,
                                payloads: map<string, string>, n: nat, uuid: string, start: string)
    requires WellFormed(p)
    requires ',' !in gc.author
    ensures Handled(p, gc, refBranch, currentBranch, payloads, n, uuid, start).effects != [] <==>
      LatestTag(gc).Ok? && Accepts(p, Text.ExtractCommand(gc.commentBody)) && Allowed(gc.authorAssociation)
  {
    if LatestTag(gc).Ok? {
      var tag := LatestTag(gc).value;
      HelperCharacterized(p, gc, tag);
      if Helper(p, gc, tag).Err? {
        RefusedSilently(p, gc, refBranch, currentBranch, payloads, n, uuid, start);
      } else {
        AcceptedCallsGithub(p, gc, refBranch, currentBranch, payloads, n, uuid, start);
      }
    }
  }

  /** Once `handlerhelper` succeeds, `handle` makes at least its first dispatch. */
  lemma AcceptedCallsGithub(p: Pattern, gc: GithubClient, refBranch: string, currentBranch: string,
                            payloads: map<string, string>, n: nat, uuid: string, start: string)
    requires LatestTag(gc).Ok? && Helper(p, gc, LatestTag(gc).value).Ok?
    ensures Handled(p, gc, refBranch, currentBranch, payloads, n, uuid, start).effects != []
  {
    var ref := Helper(p, gc, LatestTag(gc).value).value;
    AcceptedDispatches(p, gc, refBranch, currentBranch, payloads, n, uuid, start, ref);
    var sha := LastCommitSHA(gc);
    FirstDispatchIsABuild(gc, WithPayload(payloads, sha, gc.pr, sha, ref, start, uuid), uuid, n);
  }

  /** Whatever fails, the dispatches begin with a build-docker dispatch for the current branch. */
  lemma FirstDispatchIsABuild(gc: GithubClient, payloads: map<string, string>, uuid: string, n: nat)
    ensures var trace := Dispatches(gc, payloads, uuid, n).1;
      trace != [] && trace[0] == Dispatch("build-docker", BuildRequest(Get(payloads, "CURRENT_BRANCH"), payloads, uuid))
  {
  }

  /** Neither error `handlerhelper` returns holds the guard text, so `handle` posts nothing. */
  lemma RefusedSilently(p: Pattern, gc: GithubClient, refBranch: string, currentBranch: string,
                        payloads: map<string, string>, n: nat, uuid: string, start: string)
    requires ',' !in gc.author
    requires LatestTag(gc).Ok? && Helper(p, gc, LatestTag(gc).value).Err?
    ensures Handled(p, gc, refBranch, currentBranch, payloads, n, uuid, start).effects == []
  {
    RejectionLacksOwnerGuard(gc.author);
    NoMatchLacksOwnerGuard();
  }

  /** `handle` ends without error exactly when the tag is known, the command accepted,
    * the author allowed and none of its three dispatches fails; until then the handler's
    * fields keep their values. */
  lemma HandleSucceeds(p: Pattern, gc: GithubClient, refBranch: string, currentBranch: string,
                       payloads: map<string, string>, n: nat, uuid: string, start: string)
    requires WellFormed(p)
    ensures var o := Handled(p, gc, refBranch, currentBranch, payloads, n, uuid, start);
      && (o.err.None? <==>
            LatestTag(gc).Ok? && Accepts(p, Text.ExtractCommand(gc.commentBody))
            && Allowed(gc.authorAssociation)
            && n !in gc.dispatchErrors && n + 1 !in gc.dispatchErrors && n + 2 !in gc.dispatchErrors)
      && (!(LatestTag(gc).Ok? && Accepts(p, Text.ExtractCommand(gc.commentBody))
            && Allowed(gc.authorAssociation)) ==>
            o.refBranch == refBranch && o.currentBranch == currentBranch && o.payloads == payloads)
  {
    if LatestTag(gc).Ok? {
      var tag := LatestTag(gc).value;
      HelperCharacterized(p, gc, tag);
      if Helper(p, gc, tag).Ok? {
        AcceptedDispatches(p, gc, refBranch, currentBranch, payloads, n, uuid, start, Helper(p, gc, tag).value);
      } else {
        RefusedOutcome(p, gc, refBranch, currentBranch, payloads, n, uuid, start);
      }
    }
  }

  /** A run in which nothing fails makes exactly five calls: a build of the PR head, a poll,
    * a build of the reference, a poll of the same key, and the performance dispatch with
    * the filled payload. Both builds and polls carry the PR, the head commit and the uuid. */
  lemma FullRun(p: Pattern, gc: GithubClient, refBranch: string, currentBranch: string,
                payloads: map<string, string>, n: nat, uuid: string, start: string)
    requires WellFormed(p)
    requires LatestTag(gc).Ok? && Accepts(p, Text.ExtractCommand(gc.commentBody))
    requires Allowed(gc.authorAssociation)
    requires n !in gc.dispatchErrors && n + 1 !in gc.dispatchErrors && n + 2 !in gc.dispatchErrors
    ensures var o := Handled(p, gc, refBranch, currentBranch, payloads, n, uuid, start);
      var sha := LastCommitSHA(gc);
      var ref := ResolveRef(Argument(p, Text.ExtractCommand(gc.commentBody)), LatestTag(gc).value);
      var key := ["build-docker", gc.owner, gc.repo, Text.Itoa(gc.pr), sha, uuid];
      && o.err.None? && o.refBranch == ref && o.currentBranch == sha
      && o.payloads == WithPayload(payloads, sha, gc.pr, sha, ref, start, uuid)
      && o.effects == [
           Dispatch("build-docker", map["REF" := sha, "PR_NUMBER" := Text.Itoa(gc.pr), "LAST_COMMIT_SHA" := sha, "UUID" := uuid]),
           StartPoll(key),
           Dispatch("build-docker", map["REF" := ref, "PR_NUMBER" := Text.Itoa(gc.pr), "LAST_COMMIT_SHA" := sha, "UUID" := uuid]),
           StartPoll(key),
           Dispatch("run-perf", o.payloads)]
  {
    var tag := LatestTag(gc).value;
    HelperCharacterized(p, gc, tag);
    var ref := ResolveRef(Argument(p, Text.ExtractCommand(gc.commentBody)), tag);
    var sha := LastCommitSHA(gc);
    AcceptedDispatches(p, gc, refBranch, currentBranch, payloads, n, uuid, start, ref);
    CleanDispatches(gc, WithPayload(payloads, sha, gc.pr, sha, ref, start, uuid), payloads, sha, ref, start, uuid, n);
  }

  /** Once `handlerhelper` has resolved `ref`, `handle` keeps the resolved branches and the
    * filled payload, and ends as its dispatches do. */
  lemma AcceptedDispatches(p: Pattern, gc: GithubClient, refBranch: string, currentBranch: string,
                           payloads: map<string, string>, n: nat, uuid: string, start: string, ref: string)
    requires LatestTag(gc).Ok? && Helper(p, gc, LatestTag(gc).value) == Ok(ref)
    ensures var sha := LastCommitSHA(gc);
      var filled := WithPayload(payloads, sha, gc.pr, sha, ref, start, uuid);
      var (err, trace) := Dispatches(gc, filled, uuid, n);
      Handled(p, gc, refBranch, currentBranch, payloads, n, uuid, start) == Outcome(err, ref, sha, filled, trace)
  {
  }

  lemma RefusedOutcome(p: Pattern, gc: GithubClient, refBranch: string, currentBranch: string,
                       payloads: map<string, string>, n: nat, uuid: string, start: string)
    requires LatestTag(gc).Ok? && Helper(p, gc, LatestTag(gc).value).Err?
    ensures var e := Helper(p, gc, LatestTag(gc).value).error;
      Handled(p, gc, refBranch, currentBranch, payloads, n, uuid, start) ==
        Outcome(Some(e), refBranch, currentBranch, payloads, Reply(gc.pr, e, OwnerGuard))
  {
  }

  /** With a payload `extractPayload` filled and no failing call, the three dispatches
    * build the head commit and the reference and carry the PR, the commit and the uuid. */
  lemma CleanDispatches(gc: GithubClient, filled: map<string, string>, payloads: map<string, string>,
                        sha: string, ref: string, start: string, uuid: string, n: nat)
    requires filled == WithPayload(payloads, sha, gc.pr, sha, ref, start, uuid)
    requires n !in gc.dispatchErrors && n + 1 !in gc.dispatchErrors && n + 2 !in gc.dispatchErrors
    ensures var key := ["build-docker", gc.owner, gc.repo, Text.Itoa(gc.pr), sha, uuid];
      Dispatches(gc, filled, uuid, n) == (None, [
        Dispatch("build-docker", map["REF" := sha, "PR_NUMBER" := Text.Itoa(gc.pr), "LAST_COMMIT_SHA" := sha, "UUID" := uuid]),
        StartPoll(key),
        Dispatch("build-docker", map["REF" := ref, "PR_NUMBER" := Text.Itoa(gc.pr), "LAST_COMMIT_SHA" := sha, "UUID" := uuid]),
        StartPoll(key),
        Dispatch("run-perf", filled)])
  {
    PayloadEntries(payloads, sha, gc.pr, sha, ref, start, uuid);
    assert Get(filled, "CURRENT_BRANCH") == sha && Get(filled, "REF_BRANCH") == ref;
    assert Get(filled, "PR_NUMBER") == Text.Itoa(gc.pr) && Get(filled, "LAST_COMMIT_SHA") == sha;
  }

  /** `extractPayload` sets its six entries and keeps every other one; the PR number it
    * writes reads back as the PR number. */
  lemma PayloadEntries(payloads: map<string, string>, current: string, pr: int, sha: string, ref: string,
                       start: string, uuid: string)
    ensures var p := WithPayload(payloads, current, pr, sha, ref, start, uuid);
      && p.Keys == payloads.Keys + PayloadKeys
      && p["CURRENT_BRANCH"] == current && p["LAST_COMMIT_SHA"] == sha && p["REF_BRANCH"] == ref
      && p["START_TIME"] == start && p["UUID"] == uuid
      && (forall k :: k in payloads && k !in PayloadKeys ==> p[k] == payloads[k])
      && var d := p["PR_NUMBER"];
      && d != [] && (d[0] == '-' || Text.IsDecimalDigit(d[0]))
      && (forall k :: 1 <= k < |d| ==> Text.IsDecimalDigit(d[k]))
      && Text.DecimalValue(d) == pr
  {
    Text.ItoaRoundTrip(pr);
  }

  /** A poll is satisfied exactly when the store holds the bytes of "SUCCESS" under the
    * status key and reading that key does not fail. */
  lemma ReadyIffSuccessStored(store: Meta.MetaStore, dispatchName: string, org: string, repo: string,
                              pr: string, commit: string, uuid: string)
    ensures var key := StatusKey(dispatchName, org, repo, pr, commit, uuid);
      Ready(CheckStatus(store, dispatchName, org, repo, pr, commit, uuid)) <==>
        key !in store.readErrors && key in store.entries && store.entries[key] == Meta.AsciiBytes("SUCCESS")
  {
    var key := StatusKey(dispatchName, org, repo, pr, commit, uuid);
    var success := Meta.AsciiBytes("SUCCESS");
    if key !in store.readErrors && key in store.entries && Meta.BytesToString(store.entries[key]) == "SUCCESS" {
      Meta.BytesToStringInjective(store.entries[key], success);
    }
  }

  // ---------------------------------------------------------------------------
  // Comments from the plugin's tests and their neighbours.

  /** "latest" padded with cutset characters resolves to the newest tag. */
  lemma PaddedLatestUsesNewestTag(gc: GithubClient, lastTag: string)
    requires gc.commentBody == "\r\n/run-perf latest\t" && Allowed(gc.authorAssociation)
    ensures Helper(RunPerfPattern, gc, lastTag) == Ok(lastTag)
  {
    PaddedLatestCaptured(gc.commentBody);
    CapturedHelper(RunPerfPattern, gc, lastTag, "latest");
  }

  lemma PaddedLatestCaptured(body: string)
    requires body == "\r\n/run-perf latest\t"
    ensures Command.Capture(RunPerfPattern, body) == Some("latest")
  {
    RunPerfPatternIsPlain();
    assert body == "\r\n" + (RunPerfPattern.keyword + " " + "latest") + "\t" by {
      assert RunPerfPattern.keyword == "/run-perf";
    }
    assert FoldWord("latest", RunPerfPattern.words[2]);
    Command.CaptureOfPaddedWord(RunPerfPattern, "latest", 2);
  }

  /** Case is ignored when matching but not when resolving: "latest" spelt in any other
    * case ("LATEST", "Latest", ...) is taken up and then used as a branch name, not as
    * the newest tag. */
  lemma LatestInOtherCaseIsABranchName(gc: GithubClient, lastTag: string, t: string)
    requires gc.commentBody == RunPerfPattern.keyword + " " + t
    requires FoldWord(t, "latest") && t != "latest" && Allowed(gc.authorAssociation)
    ensures Helper(RunPerfPattern, gc, lastTag) == Ok(t)
  {
    RunPerfPatternIsPlain();
    Command.CaptureOfWord(RunPerfPattern, gc.commentBody, t, 2);
    CapturedHelper(RunPerfPattern, gc, lastTag, t);
  }

  /** A release version is taken up as the reference, suffix included. */
  lemma VersionIsTheReference(gc: GithubClient, lastTag: string)
    requires gc.commentBody == "/run-perf v1.2.3-nightly" && Allowed(gc.authorAssociation)
    ensures Helper(RunPerfPattern, gc, lastTag) == Ok("v1.2.3-nightly")
  {
    VersionCaptured(gc.commentBody);
    assert "v1.2.3-nightly"[0] != "latest"[0];
    CapturedHelper(RunPerfPattern, gc, lastTag, "v1.2.3-nightly");
  }

  lemma VersionCaptured(body: string)
    requires body == "/run-perf v1.2.3-nightly"
    ensures Command.Capture(RunPerfPattern, body) == Some("v1.2.3-nightly")
  {
    RunPerfPatternIsPlain();
    NightlyIsVersion("v1.2.3-nightly");
    NightlyCommand(body);
    Command.CaptureOfVersion(RunPerfPattern, body, "v1.2.3-nightly", 2, 4, 6);
  }

  lemma NightlyCommand(body: string)
    requires body == "/run-perf v1.2.3-nightly"
    ensures body == RunPerfPattern.keyword + " " + "v1.2.3-nightly"
  {
    assert RunPerfPattern.keyword == "/run-perf";
  }

  /** The run-perf pattern meets what the generic capture lemmas ask of a pattern. */
  lemma RunPerfPatternIsPlain()
    ensures WellFormed(RunPerfPattern) && Command.PlainKeyword(RunPerfPattern.keyword)
  {
    var w := RunPerfPattern.words;
    assert IsWord(w[0]);
    assert IsWord(w[1]);
    assert IsWord(w[2]);
    assert Command.PlainKeyword(RunPerfPattern.keyword) by {
      var k := RunPerfPattern.keyword;
      assert forall j :: 0 <= j < |k| ==> k[j] != '\n';
    }
  }

  /** Two references are refused as unmatched, whoever writes them. */
  lemma TwoReferencesUnmatched(gc: GithubClient, lastTag: string)
    requires gc.commentBody == "/run-perf master main"
    ensures Helper(RunPerfPattern, gc, lastTag) == Err(Command.NoMatchError)
  {
    RunPerfPatternIsPlain();
    Command.CaptureOfRejected(RunPerfPattern, gc.commentBody, " ", "master main");
  }

  /** "current", a word only build-docker knows, is refused as unmatched. */
  lemma CurrentUnmatched(gc: GithubClient, lastTag: string)
    requires gc.commentBody == "/run-perf current"
    ensures Helper(RunPerfPattern, gc, lastTag) == Err(Command.NoMatchError)
  {
    RunPerfPatternIsPlain();
    Command.CaptureOfRejected(RunPerfPattern, gc.commentBody, " ", "current");
  }

  /** A longer command name is refused as unmatched. */
  lemma LongerCommandUnmatched(gc: GithubClient, lastTag: string)
    requires gc.commentBody == "/run-perf-local"
    ensures Helper(RunPerfPattern, gc, lastTag) == Err(Command.NoMatchError)
  {
    RunPerfPatternIsPlain();
    Command.CaptureOfRejected(RunPerfPattern, gc.commentBody, [], "-local");
  }

  /** A valid command from someone outside the project is refused with the rejection text. */
  lemma OutsiderIsRefused(gc: GithubClient, lastTag: string)
    requires gc.commentBody == "/run-perf master" && !Allowed(gc.authorAssociation)
    ensures Helper(RunPerfPattern, gc, lastTag) == Err(RejectionMessage(gc.author))
  {
    RunPerfPatternIsPlain();
    Command.CaptureOfWord(RunPerfPattern, gc.commentBody, "master", 0);
  }
}


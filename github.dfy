/** What the plugins see of GitHub: the fields of `GithubClient` that an issue
  * comment fills in, the answers the REST API will give (the PR's commits, the
  * repository's tags, which dispatch calls fail), and the calls a handler makes
  * (`PostComment`, `CreateRepositoryDispatch`), recorded as effects in the order
  * they are made. Also `verifyUser` and the rejection message it builds, which
  * every plugin carries an identical copy of. */
module Github {
  import opened Wrappers
  import Text

  /** A `GithubClient` built from one event, together with what the API will answer it. */
  datatype GithubClient = GithubClient(
    owner: string,
    repo: string,
    pr: int,
    author: string,
    commentBody: string,
    authorAssociation: string,
    state: string,
    /** the PR's commits as `ListCommits` returns them, oldest first (empty when the call fails) */
    commits: seq<string>,
    /** the tag names `ListTags` returns, newest first, or the error it fails with */
    tags: Result<seq<string>>,
    /** the error the n-th `CreateRepositoryDispatch` call of this client returns, if any */
    dispatchErrors: map<nat, string>)

  /** A call a handler makes to GitHub, or a background poll it starts. */
  datatype Effect =
    | Comment(pr: int, body: string)
    | Dispatch(eventType: string, payload: map<string, string>)
    | StartPoll(key: seq<string>)

  /** `GetLastCommitSHA`: the newest commit of the PR, or "" when there is none. */
  function LastCommitSHA(gc: GithubClient): (sha: string)
    ensures gc.commits == [] ==> sha == ""
    ensures gc.commits != [] ==> sha in gc.commits && sha == gc.commits[|gc.commits| - 1]
  {
    if gc.commits == [] then "" else gc.commits[|gc.commits| - 1]
  }

  /** `GetLatestTag`: the first tag listed, an error when the listing fails, and a
    * "has no tags" error for a repository without tags. */
  function LatestTag(gc: GithubClient): (r: Result<string>)
    ensures gc.tags.Err? ==> r == Err(gc.tags.error)
    ensures gc.tags.Ok? && gc.tags.value != [] ==> r == Ok(gc.tags.value[0])
    ensures gc.tags.Ok? && gc.tags.value == [] ==> r.Err? && r.error == gc.repo + " owned by " + gc.owner + " has no tags"
    ensures r.Ok? ==> r.value in gc.tags.value
  {
    match gc.tags
    case Err(e) => Err(e)
    case Ok(names) =>
      if |names| > 0 then Ok(names[0]) else Err(gc.repo + " owned by " + gc.owner + " has no tags")
  }

  /** Go's `m[k]` on a `map[string]string`: the zero value "" for a missing key. */
  function Get(m: map<string, string>, k: string): string {
    if k in m then m[k] else ""
  }

  /** The author associations that may run a command. */
  predicate Allowed(association: string) {
    association == "COLLABORATOR" || association == "MEMBER" || association == "OWNER"
  }

  /** The error text `verifyUser` returns for anyone else. */
  function RejectionMessage(author: string): string {
    "@" + author + RejectionTail
  }

  /** " is not a org, member nor a collaborator and cannot execute fusebench.", written in
    * pieces short enough for the solver to read character by character. */
  const RejectionTail := " " + OrgGuard + TailEnd

  const TailOrg := "is not a org" + ","

  const TailEnd := " and cannot execute" + " fusebench."

  const TailMember := " member nor a collaborator"

  /** `verifyUser`: scans the fixed list of allowed associations; no error exactly
    * for those three, otherwise the rejection naming the author. */
  method VerifyUser(association: string, author: string) returns (err: Option<string>)
    ensures err.None? <==> Allowed(association)
    ensures err.Some? ==> err.value == RejectionMessage(author)
  {
    var allowedAssociations := ["COLLABORATOR", "MEMBER", "OWNER"];
    var allowed := false;
    var i := 0;
    while i < |allowedAssociations|
      invariant 0 <= i <= |allowedAssociations|
      invariant allowed <==> association in allowedAssociations[..i]
    {
      if allowedAssociations[i] == association {
        allowed := true;
      }
      assert allowedAssociations[..i + 1] == allowedAssociations[..i] + [allowedAssociations[i]];
      i := i + 1;
    }
    assert allowedAssociations[..i] == allowedAssociations;
    if !allowed {
      return Some(RejectionMessage(author));
    }
    return None;
  }

  /** The comment `handle` posts after `handlerhelper` fails with `e`: the error itself,
    * on the PR, but only when it contains `guard`. */
  function Reply(pr: int, e: string, guard: string): seq<Effect> {
    if Text.Contains(e, guard) then [Comment(pr, e)] else []
  }

  /** The text build-docker and fusebench-local look for before posting an error as a comment. */
  const OrgGuard := TailOrg + TailMember

  /** The text run-perf looks for instead. */
  const OwnerGuard := "is not an owner," + TailMember

  /** The rejection always contains the text build-docker and fusebench-local look for. */
  lemma RejectionHasOrgGuard(author: string)
    ensures Text.Contains(RejectionMessage(author), OrgGuard)
  {
    var msg := RejectionMessage(author);
    var n := |author| + 2;
    assert RejectionTail == (" " + OrgGuard) + TailEnd;
    forall j | 0 <= j < |OrgGuard| ensures msg[n + j] == OrgGuard[j] {
      RejectionAt(author, n + j);
    }
    assert msg[n..n + |OrgGuard|] == OrgGuard;
    assert Text.OccursAt(msg, OrgGuard, n);
  }

  /** The rejection tail has a ',' at position 13 and nowhere else. */
  lemma OneCommaInTail(j: nat)
    requires j < |RejectionTail| && j != 13
    ensures RejectionTail[j] != ','
  {
    var head := " " + "is not a org";
    var rest := TailMember + TailEnd;
    assert ',' !in head && ',' !in TailMember && ',' !in TailEnd;
    assert RejectionTail == head + [','] + rest;
    if j < 13 {
      assert RejectionTail[j] == head[j];
    } else {
      assert RejectionTail[j] == rest[j - 14];
    }
  }

  /** The characters of the two texts that tell them apart. */
  lemma GuardLetters()
    ensures |OwnerGuard| == 42 && OwnerGuard[3] == 'n' && OwnerGuard[15] == ','
    ensures |RejectionTail| > 13 && RejectionTail[1] == 'i'
  {
    assert OwnerGuard == "is not an owner," + TailMember;
    assert RejectionTail == (" " + TailOrg) + (TailMember + TailEnd);
  }

  /** The rejection message character by character. */
  lemma RejectionAt(author: string, i: nat)
    requires i < |RejectionMessage(author)|
    ensures RejectionMessage(author)[i] ==
      if i == 0 then '@' else if i <= |author| then author[i - 1] else RejectionTail[i - 1 - |author|]
  {
    assert RejectionMessage(author) == ("@" + author) + RejectionTail;
  }

  /** The rejection never contains the text run-perf looks for, whatever the
    * author's login (GitHub logins contain no ','): run-perf never posts it. */
  lemma RejectionLacksOwnerGuard(author: string)
    requires ',' !in author
    ensures !Text.Contains(RejectionMessage(author), OwnerGuard)
  {
    var msg := RejectionMessage(author);
    GuardLetters();
    forall k: nat | k <= |msg| ensures !Text.OccursAt(msg, OwnerGuard, k) {
      if k + |OwnerGuard| <= |msg| {
        if k + 1 == |author| {
          // the ',' lines up, but the text before it differs
          RejectionAt(author, k + 3);
          assert msg[k + 3] != OwnerGuard[3];
        } else {
          RejectionAt(author, k + 15);
          if k + 15 <= |author| {
            assert msg[k + 15] in author;
          } else {
            OneCommaInTail(k + 14 - |author|);
          }
          assert msg[k + 15] != OwnerGuard[15];
        }
      }
    }
  }
}

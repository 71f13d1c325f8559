# Chat-command front end of the test-infra bots

This project models, in Dafny, the front end of the chat-bot plugins of
databendlabs/test-infra. A pull-request comment such as `/run-perf master` or
`/build-docker current` is turned into a reference branch, a payload and a sequence
of GitHub calls. The model covers:

- **Text**: `extractCommand`, which every plugin carries a copy of. It takes the first
  line of a comment and trims the cutset `"\r\n\t "` from both ends. The module also
  has `strconv.Itoa`.
- **Pattern**: a recognizer for the one shape of Go regular expression the plugins
  compile, `(?mi)^<keyword>\s*(?P<RELEASE><words>|v[0-9]+\.[0-9]+\.[0-9]+\S*)\s*$`.
  It follows Go's leftmost-first semantics: `FirstMatch` is
  `FindAllStringSubmatch(s, -1)[0]`. A declarative reading, `Accepts`/`Argument`, is
  proved to agree with it on every single line.
- **Command**: the RELEASE capture the plugins read, `matches[0][1]`.
- **Github**: the client fields an issue comment fills in and the answers of the REST
  API. The calls a handler makes are recorded as effects, in order. The module also
  has `verifyUser` and its rejection text.
- **RunPerf, BuildDocker, Fusebench**: the three comment plugins. Each handler is a
  class whose fields (`RefBranch`, `CurrentBranch`/`BranchName`, `Payloads`) its
  methods update in place. Each method is proved against a function (`Helper`,
  `Handled`) that says what one call decides, and lemmas state what the plugin
  promises about those decisions.
- **LabelRunPerf**: the push plugin. It turns the labels of a pull request back into
  slash commands.
- **Plugins**: the name→handler registry and `NewAgent`.
- **Endpoint**: the scheme normalisation of the `-endpoint` flag and the
  leader-election lease timings in chatbots/cmd/main.go.

Inputs the code reads from the outside are parameters:

- the comment, its author and the author's association;
- the PR's commits and the repository's tags;
- which dispatch calls fail;
- the contents of the metadata store;
- the fresh uuid and the start time;
- the order in which Go visits a map.

Every call to GitHub is an `Effect`: `Comment`, `Dispatch`, or `StartPoll` for a
background poll.

## Where the code works against itself

The model follows the code as written. These places are worth knowing:

- **run-perf never tells a refused author.** Its own rejection text is never posted.
  - run-perf's `handle` posts an error only when it contains "is not an owner, member
    nor a collaborator" (run-perf.go:90).
  - Its `verifyUser` writes "is not a org, member nor a collaborator" (run-perf.go:69),
    so that test never succeeds.
  - `Github.RejectionLacksOwnerGuard` and `RunPerf.RefusedSilently` prove that
    nothing is posted.
  - build-docker looks for the text its `verifyUser` writes (build-docker.go:82), and
    so does fusebench-local; both do post the rejection
    (`BuildDocker.RefusedAuthorIsTold`, `Fusebench.OnlyTheRejectionIsPosted`).
- **An unmatched comment is not always silent.** run-perf and build-docker return the
  error "there is no matching regex". Nothing is posted. fusebench-local returns nil.
- **No acknowledgement comment.** The comment announcing a run is commented out
  (run-perf.go:125-128), so a successful run makes no comment.
- **Lease timings.** main.go:156-158 sets LeaseDuration 60s > RenewDeadline 15s >
  RetryPeriod 5s, the order client-go's leader elector requires. The model states
  that order and the elector's jitter bound.
- **The push handler is never registered.** label-run-perf.go:31 calls
  `plugins.RegisterPushHandler`. chatbots/plugins/plugins.go declares no such
  function, and the registry holds issue-comment handlers only. The model covers the
  push handler itself, not its registration.

## Model

| member | source | states |
|---|---|---|
| Text.TrimLeft | chatbots/plugins/runperf/run-perf.go:51 | the result is a suffix of the input; everything dropped is in the cutset; the result does not start with a cutset character |
| Text.TrimRight | chatbots/plugins/runperf/run-perf.go:55 | the result is a prefix of the input; everything dropped is in the cutset; the result does not end with a cutset character |
| Text.IndexOf | chatbots/plugins/runperf/run-perf.go:52 | -1 exactly when the character is absent; otherwise its first position |
| Text.FirstLine | chatbots/plugins/runperf/run-perf.go:52-54 | the text before the first '\n': the whole text when it has none, else a prefix followed by '\n' |
| Text.ExtractCommand | chatbots/plugins/runperf/run-perf.go:50-57 | the extracted command holds no '\n' and neither starts nor ends with a cutset character |
| Text.ExtractCommandIsSlice | chatbots/plugins/runperf/run-perf.go:50-57 | the extracted command is a contiguous slice of the comment: trimming and cutting at the first line break only remove text |
| Text.ExtractCommandIdempotent | chatbots/plugins/runperf/run-perf.go:50-57 | extracting an extracted command changes nothing |
| Text.ExtractCommandIgnoresPadding | chatbots/plugins/runperf/run-perf.go:50-57 | cutset characters before and after a one-line command do not change what is extracted |
| Text.NatToDecimal | chatbots/plugins/runperf/run-perf.go:189 | a non-empty string of decimal digits without a leading zero |
| Text.ItoaRoundTrip | chatbots/plugins/runperf/run-perf.go:189 | the PR number `strconv.Itoa` writes is a signed numeral that reads back as the same number |
| Pattern.Span | chatbots/plugins/runperf/run-perf.go:30 | a greedy `C*` ends at the first character outside the class, and everything before that is in the class |
| Pattern.LineEndBack | chatbots/plugins/runperf/run-perf.go:30 | a trailing `\s*$` stops at the last line end in its run, and fails when the run holds none |
| Pattern.Finish | chatbots/plugins/runperf/run-perf.go:30 | a completed match starts where the pattern was tried and captures exactly the argument |
| Pattern.VersionEnd | chatbots/plugins/runperf/run-perf.go:30 | a version alternative, when present, covers at least one character |
| Pattern.TryAlternatives | chatbots/plugins/runperf/run-perf.go:30 | a match of the alternation starts at the anchor and its capture starts where the alternation begins |
| Pattern.MatchAt | chatbots/plugins/runperf/run-perf.go:30 | a match anchored at `i` starts at `i` and lies within the text |
| Pattern.FirstMatchFrom | chatbots/plugins/runperf/run-perf.go:136 | a match found from `i` on starts at or after `i` and lies within the text |
| Pattern.FirstMatch | chatbots/plugins/runperf/run-perf.go:136 | the first submatch lies within the text, its group inside the whole match |
| Pattern.StripEnd | chatbots/plugins/runperf/run-perf.go:30 | drops exactly the trailing `\s` run, never going below its lower bound |
| Pattern.FirstMatchCharacterized | chatbots/plugins/runperf/run-perf.go:30 | on a line without '\n' the pattern matches exactly when the line is the keyword (any case) and one valid argument; the match then spans the line and captures that argument |
| Pattern.ValidArgumentStart | chatbots/plugins/runperf/run-perf.go:30 | a valid argument starts with a character that folds to 'v' or to the first letter of a word |
| Pattern.ArgumentIs | chatbots/plugins/runperf/run-perf.go:30 | the argument is the text between the `\s` after the keyword and the trailing `\s` |
| Pattern.RejectedArgument | chatbots/plugins/runperf/run-perf.go:30 | an argument that starts like neither a version nor a word of its length is not valid |
| Pattern.NightlyIsVersion | chatbots/plugins/runperf/run-perf_test.go:148 | "v1.2.3-nightly" splits as v, three digit runs and a `\S*` suffix |
| Command.CaptureCharacterized | chatbots/plugins/runperf/run-perf.go:134-152 | a comment is taken up exactly when its extracted first line is accepted, and the capture is that line's argument |
| Command.CommandLine | chatbots/plugins/runperf/run-perf.go:30 | `keyword + sep + t` is one line that starts with the keyword, whose argument is `t` |
| Command.CaptureOfBareKeyword | chatbots/plugins/builddocker/build-docker.go:24 | the bare keyword, padded or not, is never taken up |
| Command.CaptureOfCommand | chatbots/plugins/runperf/run-perf.go:134-136 | a padded `keyword sep t` is captured as `t` exactly when `t` is a valid argument |
| Command.CaptureOfWord | chatbots/plugins/runperf/run-perf.go:30 | a word spelt in any case after the keyword is captured as written |
| Command.CaptureOfVersion | chatbots/plugins/runperf/run-perf.go:30 | a version after the keyword is captured whole, suffix included |
| Command.CaptureOfPlainArgument | chatbots/plugins/runperf/run-perf.go:30 | `keyword t` is captured as `t` exactly when `t` is valid |
| Command.CaptureOfRejected | chatbots/plugins/runperf/run-perf.go:30 | an argument starting like no version and no word of its length gives Go's nil match list |
| Meta.GetCopy | chatbots/plugins/runperf/run-perf.go:161-162 | a read fails exactly for a key with a read error, giving that error; otherwise it finds the stored bytes, or reports the key as not found exactly when nothing is stored |
| Meta.BytesToString | chatbots/plugins/runperf/run-perf.go:168 | `string(sb)` keeps the bytes one for one |
| Meta.BytesToStringInjective | chatbots/plugins/runperf/run-perf.go:168 | different stored bytes read back as different statuses |
| Meta.AsciiBytes | chatbots/plugins/runperf/run-perf.go:180 | the bytes of an ASCII status read back as that status |
| Github.LastCommitSHA | chatbots/github/github-client.go:66-74 | the last commit listed for the PR, or "" when none are listed |
| Github.LatestTag | chatbots/github/github-client.go:93-105 | the listing's error, the first tag listed, or the "<repo> owned by <owner> has no tags" error for a repository without tags |
| Github.VerifyUser | chatbots/plugins/runperf/run-perf.go:60-73 | no error exactly for COLLABORATOR, MEMBER or OWNER; otherwise the rejection naming the author |
| Github.RejectionHasOrgGuard | chatbots/plugins/builddocker/build-docker.go:82 | the rejection contains the text build-docker and fusebench-local look for |
| Github.RejectionLacksOwnerGuard | chatbots/plugins/runperf/run-perf.go:90 | the rejection never contains the text run-perf looks for, for any login without ',' |
| RunPerf.StatusKey | chatbots/plugins/runperf/run-perf.go:161 | the store key is dispatch name, owner, repository, PR number, commit and uuid, in that order |
| RunPerf.StatusKeyInjective | chatbots/plugins/runperf/run-perf.go:161 | two status keys are equal only when all six parts are, so a poll reads only its own build's result |
| RunPerf.PollKey | chatbots/plugins/runperf/run-perf.go:174 | a poll reads the "build-docker" key of the client's owner and repository, the payload's PR number and commit, and the run's uuid |
| RunPerf.CheckStatus | chatbots/plugins/runperf/run-perf.go:160-169 | a missing key reads as ("NOT_FOUND", no error), stored bytes read as their string with no error, and a read error is returned as the error with an empty status |
| RunPerf.Handler.constructor | chatbots/plugins/runperf/run-perf.go:223-237 | the run-perf pattern, the client and the meta store; empty fields and payload map |
| RunPerf.Handler.CreateDispatch | chatbots/github/github-client.go:76-91 | one dispatch recorded; its error is the one the client's n-th call returns |
| RunPerf.Handler.PostComment | chatbots/github/github-client.go:50-54 | one comment recorded on the handler's PR; nothing else changes |
| RunPerf.Handler.WaitToReady | chatbots/plugins/runperf/run-perf.go:170-185 | starts a poll of the build status key of the PR, head commit and uuid, whatever the branch |
| RunPerf.Handler.ExtractPayload | chatbots/plugins/runperf/run-perf.go:187-196 | writes the six payload entries in place; the branches are unchanged |
| RunPerf.Handler.SelectBranches | chatbots/plugins/runperf/run-perf.go:148-157 | reference from the capture ("latest" is the newest tag), current branch the head commit, payload filled |
| RunPerf.Handler.HandlerHelper | chatbots/plugins/runperf/run-perf.go:133-158 | on error, the error of `Helper` and no field changed; otherwise the resolved branches and the filled payload |
| RunPerf.Handler.Report | chatbots/plugins/runperf/run-perf.go:89-93 | the error is posted exactly when it contains the guard |
| RunPerf.Handler.Handle | chatbots/plugins/runperf/run-perf.go:76-131 | error, fields and calls are those `Handled` gives for the old state |
| RunPerf.Handler.DispatchBuilds | chatbots/plugins/runperf/run-perf.go:95-124 | the calls and the error `Dispatches` gives; the fields are unchanged |
| RunPerf.HelperCharacterized | chatbots/plugins/runperf/run-perf.go:133-153 | unmatched → no-match error; matched but not allowed → rejection; else the resolved reference |
| RunPerf.NoMatchLacksOwnerGuard | chatbots/plugins/runperf/run-perf.go:88-93 | the no-match error is never posted |
| RunPerf.NoEffectsUnlessAccepted | chatbots/plugins/runperf/run-perf.go:76-131 | `handle` calls GitHub exactly when the tag is known, the command accepted and the author allowed |
| RunPerf.AcceptedCallsGithub | chatbots/plugins/runperf/run-perf.go:98-105 | an accepted command always makes its first dispatch |
| RunPerf.FirstDispatchIsABuild | chatbots/plugins/runperf/run-perf.go:98-101 | the first call is the build-docker dispatch of the current branch |
| RunPerf.RefusedSilently | chatbots/plugins/runperf/run-perf.go:88-93 | when `handlerhelper` fails, `handle` calls nothing |
| RunPerf.HandleSucceeds | chatbots/plugins/runperf/run-perf.go:76-131 | no error exactly when tag, match, author and all three dispatches succeed; a refused run leaves the fields as they were |
| RunPerf.FullRun | chatbots/plugins/runperf/run-perf.go:95-124 | a clean run makes exactly five calls: build head, poll, build reference, poll, run-perf with the filled payload |
| RunPerf.AcceptedDispatches | chatbots/plugins/runperf/run-perf.go:88-124 | once the reference is resolved, `handle` keeps the branches and payload and ends as its dispatches do |
| RunPerf.CleanDispatches | chatbots/plugins/runperf/run-perf.go:95-124 | the build requests carry the branch, PR number, head commit and uuid |
| RunPerf.PayloadEntries | chatbots/plugins/runperf/run-perf.go:187-196 | six keys set, the others kept, and the PR number reads back |
| RunPerf.ReadyIffSuccessStored | chatbots/plugins/runperf/run-perf.go:160-181 | a poll succeeds exactly when the key holds the bytes of "SUCCESS" and reads without error |
| RunPerf.PaddedLatestUsesNewestTag | chatbots/plugins/runperf/run-perf_test.go:112-127 | a padded "latest" resolves to the newest tag |
| RunPerf.LatestInOtherCaseIsABranchName | chatbots/plugins/runperf/run-perf.go:148-153 | "latest" in any other case ("LATEST", "Latest") matches under `(?i)` but is used as a branch name |
| RunPerf.VersionIsTheReference | chatbots/plugins/runperf/run-perf_test.go:148-163 | a version is the reference, suffix included |
| RunPerf.RunPerfPatternIsPlain | chatbots/plugins/runperf/run-perf.go:30 | the run-perf words are non-empty and free of `\s` |
| RunPerf.TwoReferencesUnmatched | chatbots/plugins/runperf/run-perf_test.go:208-219 | two references give the no-match error |
| RunPerf.CurrentUnmatched | chatbots/plugins/runperf/run-perf.go:30 | "current" is no run-perf word |
| RunPerf.LongerCommandUnmatched | chatbots/plugins/runperf/run-perf_test.go:166-177 | "/run-perf-local" gives the no-match error |
| RunPerf.OutsiderIsRefused | chatbots/plugins/runperf/run-perf.go:140-143 | a valid command from a non-member gets the rejection |
| BuildDocker.Handler.constructor | chatbots/plugins/builddocker/build-docker.go:154-167 | the build-docker pattern and client; empty reference and payload |
| BuildDocker.Handler.CreateDispatch | chatbots/github/github-client.go:76-91 | one dispatch recorded with the client's n-th error |
| BuildDocker.Handler.PostComment | chatbots/github/github-client.go:50-54 | one comment recorded on the PR |
| BuildDocker.Handler.ExtractPayload | chatbots/plugins/builddocker/build-docker.go:128-133 | REF and LAST_COMMIT_SHA written in place |
| BuildDocker.Handler.SelectBranch | chatbots/plugins/builddocker/build-docker.go:115-124 | "latest" is the newest tag and "current" the head; payload filled |
| BuildDocker.Handler.HandlerHelper | chatbots/plugins/builddocker/build-docker.go:100-126 | the error of `Helper` with fields unchanged, or the resolved branch and payload |
| BuildDocker.Handler.Report | chatbots/plugins/builddocker/build-docker.go:81-86 | the error is posted exactly when it contains the guard |
| BuildDocker.Handler.Handle | chatbots/plugins/builddocker/build-docker.go:70-98 | error, fields and calls are those of `Handled` |
| BuildDocker.HelperCharacterized | chatbots/plugins/builddocker/build-docker.go:100-122 | no-match error, rejection, or the resolved branch, in the source's order of checks |
| BuildDocker.NoMatchLacksOrgGuard | chatbots/plugins/builddocker/build-docker.go:104-105 | the no-match error is never posted |
| BuildDocker.UnmatchedIsQuiet | chatbots/plugins/builddocker/build-docker.go:80-86 | an unmatched comment gives the error, no call and no change |
| BuildDocker.RefusedAuthorIsTold | chatbots/plugins/builddocker/build-docker.go:80-86 | a refused author gets exactly the rejection comment and no dispatch |
| BuildDocker.AcceptedBuildsOnce | chatbots/plugins/builddocker/build-docker.go:87-97 | an accepted command makes exactly one `build_docker` dispatch; no error iff that call succeeds |
| BuildDocker.TagErrorComesFirst | chatbots/plugins/builddocker/build-docker.go:76-79 | a failed tag lookup ends `handle` with no call and no change |
| BuildDocker.BuildDockerPatternIsPlain | chatbots/plugins/builddocker/build-docker.go:24 | the build-docker words are non-empty and free of `\s` |
| BuildDocker.CurrentBuildsTheHead | chatbots/plugins/builddocker/build-docker_test.go:61-70 | "current" builds the head commit |
| BuildDocker.PaddedLatestBuildsNewestTag | chatbots/plugins/builddocker/build-docker_test.go:73-82 | a padded "latest" builds the newest tag |
| BuildDocker.BareCommandUnmatched | chatbots/plugins/builddocker/build-docker_test.go:109 | the bare command gives the no-match error |
| BuildDocker.GluedCommandUnmatched | chatbots/plugins/builddocker/build-docker_test.go:142 | "/build-dockermaster main" gives the no-match error |
| BuildDocker.UnknownArgumentUnmatched | chatbots/plugins/builddocker/build-docker_test.go:120 | an unknown argument gives the no-match error |
| BuildDocker.SeveralWordsUnmatched | chatbots/plugins/builddocker/build-docker_test.go:131 | several words give the no-match error |
| Fusebench.Handler.constructor | chatbots/plugins/fusebench_local.go:134-147 | the fusebench-local pattern and client; empty branch and payload |
| Fusebench.Handler.PostComment | chatbots/github/github-client.go:50-54 | one comment recorded on the PR |
| Fusebench.Handler.ExtractPayload | chatbots/plugins/fusebench_local.go:107-113 | BranchName, PR_NUMBER and LAST_COMMIT_SHA written in place |
| Fusebench.Handler.SelectBranch | chatbots/plugins/fusebench_local.go:96-104 | "current" is the head commit; payload filled |
| Fusebench.Handler.HandlerHelper | chatbots/plugins/fusebench_local.go:82-105 | ignore (no error, no change), refuse, or run, as `Helper` decides |
| Fusebench.Handler.Report | chatbots/plugins/fusebench_local.go:73-77 | the error is posted exactly when it contains the guard |
| Fusebench.Handler.Handle | chatbots/plugins/fusebench_local.go:66-80 | error, fields and calls are those of `Handled` |
| Fusebench.HelperCharacterized | chatbots/plugins/fusebench_local.go:82-101 | unmatched is ignored, a refused author gets the rejection, otherwise the resolved branch |
| Fusebench.OnlyTheRejectionIsPosted | chatbots/plugins/fusebench_local.go:66-80 | at most one call, made exactly for a refused author, and it is the rejection comment |
| Fusebench.AcceptedRecordsBranch | chatbots/plugins/fusebench_local.go:96-104 | an accepted command records the branch and payload, with no error and no call |
| Fusebench.PayloadEntries | chatbots/plugins/fusebench_local.go:107-113 | three keys set, the others kept, and the PR number reads back |
| Fusebench.UnmatchedIsIgnored | chatbots/plugins/fusebench_local.go:84-87 | an unmatched comment changes nothing and is no error |
| Fusebench.FusebenchPatternIsPlain | chatbots/plugins/fusebench_local.go:21 | the fusebench-local words are non-empty and free of `\s` |
| Fusebench.PaddedCurrentIsTheHead | chatbots/plugins/fusebench_local_test.go:54-61 | a padded "current" benchmarks the head commit |
| Fusebench.VersionIsTheBranch | chatbots/plugins/fusebench_local_test.go:74-81 | a version is benchmarked as written |
| Fusebench.BareCommandIgnored | chatbots/plugins/fusebench_local_test.go:84-91 | the bare command is ignored |
| Fusebench.TwoReferencesIgnored | chatbots/plugins/fusebench_local_test.go:114-121 | two references are ignored |
| Fusebench.LatestIgnored | chatbots/plugins/fusebench_local.go:21 | "latest" is no fusebench-local word |
| LabelRunPerf.FirstByOrder | chatbots/plugins/labelrunperf/label-run-perf.go:117-128 | a found match lies within the label |
| LabelRunPerf.FirstByOrderCharacterized | chatbots/plugins/labelrunperf/label-run-perf.go:117-128 | nothing found iff no pattern matches; else the first matching name in visiting order, with its match |
| LabelRunPerf.FirstCommentCharacterized | chatbots/plugins/labelrunperf/label-run-perf.go:92-105 | no comment iff no label gives one; else the comment of the first label that does |
| LabelRunPerf.Comments | chatbots/plugins/labelrunperf/label-run-perf.go:87-107 | one comment per pull request, each its first label comment |
| LabelRunPerf.Handler.constructor | chatbots/plugins/labelrunperf/label-run-perf.go:143-159 | the three named patterns, the client's author and PR, no calls |
| LabelRunPerf.Handler.FindMatches | chatbots/plugins/labelrunperf/label-run-perf.go:117-128 | the loop returns what `FirstByOrder` specifies, and "" for no match |
| LabelRunPerf.Handler.MakeComment | chatbots/plugins/labelrunperf/label-run-perf.go:109-115 | the comment `LabelComment` specifies |
| LabelRunPerf.Handler.PostComment | chatbots/plugins/labelrunperf/label-run-perf.go:100-103 | one comment on the client's current PR |
| LabelRunPerf.Handler.CommentByLabel | chatbots/plugins/labelrunperf/label-run-perf.go:87-107 | no error; no change without a label comment; else the PR switched and exactly that comment posted |
| LabelRunPerf.Handler.Handle | chatbots/plugins/labelrunperf/label-run-perf.go:72-85 | no error; final PR and posted comments are those of `Posts` |
| LabelRunPerf.FirstByOrderIsTheMatch | chatbots/plugins/labelrunperf/label-run-perf.go:119-124 | when only one name matches, it is found wherever it stands in the order |
| LabelRunPerf.OrderIrrelevant | chatbots/plugins/labelrunperf/label-run-perf.go:119 | with at most one matching name, any two orders of the names agree |
| LabelRunPerf.LabelPatternsShape | chatbots/plugins/labelrunperf/label-run-perf.go:150-153 | three distinct names, each with its pattern, all well formed |
| LabelRunPerf.DashAfterRerun | chatbots/plugins/labelrunperf/label-run-perf.go:26 | "rerun-perf" followed by '-' is no rerun-perf label |
| LabelRunPerf.LabelPatternsDisjoint | chatbots/plugins/labelrunperf/label-run-perf.go:24-26 | no label is accepted by two of the three patterns |
| LabelRunPerf.OneLineComment | chatbots/plugins/labelrunperf/label-run-perf.go:109-115 | a one-line label's comment is "/" + label iff some pattern accepts it, else "", in every order |
| LabelRunPerf.CommentIsOrderFree | chatbots/plugins/labelrunperf/label-run-perf.go:119 | Go's random map order never changes a one-line label's comment |
| LabelRunPerf.AcceptsCommand | chatbots/plugins/labelrunperf/label-run-perf.go:24-26 | `keyword t` is accepted for any valid argument `t` |
| LabelRunPerf.RunPerfMasterLabel | chatbots/plugins/labelrunperf/label-run-perf_test.go:35-40 | "run-perf master" → "/run-perf master" |
| LabelRunPerf.RerunMasterLabel | chatbots/plugins/labelrunperf/label-run-perf_test.go:41-46 | "rerun-perf master" → "/rerun-perf master" |
| LabelRunPerf.RunPerfVersionLabel | chatbots/plugins/labelrunperf/label-run-perf_test.go:47-52 | "run-perf v0.4.11-nightly" → "/run-perf v0.4.11-nightly" |
| LabelRunPerf.VersionLabelComment | chatbots/plugins/labelrunperf/label-run-perf.go:24 | a `run-perf` label whose argument is a version (`v` digits `.` digits `.` digits, any suffix) is posted whole behind "/", suffix included, in every order |
| LabelRunPerf.RunPerfLatestLabel | chatbots/plugins/labelrunperf/label-run-perf_test.go:53-58 | "run-perf latest" → "/run-perf latest" |
| LabelRunPerf.ForeignLabel | chatbots/plugins/labelrunperf/label-run-perf_test.go:59-64 | "foo-bar" → "" |
| LabelRunPerf.LeadingSpaceLabel | chatbots/plugins/labelrunperf/label-run-perf.go:24 | a leading space defeats `^` |
| LabelRunPerf.TrailingSpaceKept | chatbots/plugins/labelrunperf/label-run-perf.go:114 | the comment copies the whole match, trailing space included |
| LabelRunPerf.SlashCommand | chatbots/plugins/labelrunperf/label-run-perf.go:114 | '/' in front of a label matches the slashed keyword and keeps the argument |
| LabelRunPerf.SlashLineExtracted | chatbots/plugins/labelrunperf/label-run-perf.go:114 | the slashed one-line label is its own extracted command |
| LabelRunPerf.SlashCapture | chatbots/plugins/labelrunperf/label-run-perf.go:114 | the slash command is captured, as the label's argument, by the slashed pattern |
| LabelRunPerf.LabelCommandReachesRunPerf | chatbots/plugins/labelrunperf/label-run-perf.go:114 | a run-perf label's comment is taken up by run-perf with the same reference |
| LabelRunPerf.OutsiderChangesNothing | chatbots/plugins/labelrunperf/label-run-perf.go:77-81 | dropping a pull request whose author may not run commands changes nothing `handle` does |
| LabelRunPerf.PostsShape | chatbots/plugins/labelrunperf/label-run-perf.go:72-107 | no more comments than pull requests, each the label comment of an allowed author's PR on that PR; the client ends on the last commented PR |
| LabelRunPerf.CommentedIndicesCharacterized | chatbots/plugins/labelrunperf/label-run-perf.go:77-83 | the pull requests `handle` comments on are listed once each, in list order, and are exactly those whose author may run commands and whose labels give a comment |
| LabelRunPerf.PostsFollowIndices | chatbots/plugins/labelrunperf/label-run-perf.go:72-107 | the posted comments are, in order, one per listed pull request: its label comment, on its number |
| LabelRunPerf.PostsComplete | chatbots/plugins/labelrunperf/label-run-perf.go:77-83 | every pull request whose author may run commands and whose labels give a comment gets that comment |
| LabelRunPerf.PostsOncePerPullRequest | chatbots/plugins/labelrunperf/label-run-perf.go:77-83 | the comments map to strictly increasing positions of the list, so no pull request is commented on twice |
| Plugins.NewAgent | chatbots/plugins/plugins.go:29-35 | keeps the client and meta store; sets no storage |
| Plugins.Registry.constructor | chatbots/plugins/plugins.go:16 | the registry starts empty |
| Plugins.Registry.Register | chatbots/plugins/plugins.go:36-38 | the name maps to the handler; other entries unchanged; one more entry exactly for a new name |
| Plugins.RegisteredNames | chatbots/plugins/plugins.go:36-38 | the registered names are the starting ones and those registered |
| Plugins.LastWriterWins | chatbots/plugins/plugins.go:37 | a name maps to the handler of its last registration |
| Plugins.Untouched | chatbots/plugins/plugins.go:37 | a name no registration uses keeps its entry |
| Plugins.SelfNamed | chatbots/plugins/plugins.go:37 | if every entry is the named plugin's handler, it stays so |
| Plugins.PluginsRegistered | chatbots/plugins/plugins.go:15-38 | in any `init` order, the registry holds exactly run-perf, build-docker and fusebench-local, each under its own name |
| Endpoint.Normalize | chatbots/cmd/main.go:83-85 | the result names a scheme and ends with the flag's value, at most "https://" added |
| Endpoint.NormalizeCases | chatbots/cmd/main.go:83-85 | unchanged iff it already starts with "http://" or "https://"; else "https://" in front |
| Endpoint.NormalizeIdempotent | chatbots/cmd/main.go:83-85 | normalising twice is normalising once |
| Endpoint.UpperCaseSchemeNotRecognised | chatbots/cmd/main.go:83 | "HTTP://x" becomes "https://HTTP://x": the test is case-sensitive |
| Endpoint.BareHostGetsHttps | chatbots/cmd/main.go:83-85 | a bare host is reached over https |
| Endpoint.LeaseOrdered | chatbots/cmd/main.go:156-158 | lease 60s > renew deadline 15s > retry period 5s, and the elector accepts them |
| Endpoint.SoundIsOrdered | chatbots/cmd/main.go:156-158 | timings the elector accepts are strictly decreasing |

## Left out

- Networking, JSON encoding, the go-github REST client and its authentication are
  inputs. The client's answers are fields of `GithubClient`. A call becomes an
  `Effect`.
- The badger metadata store is a map plus a map of read errors. Its I/O and
  transactions are not modelled.
- Time and randomness are inputs: the `guuid.New()` uuid and the `time.Now()` start
  time of run-perf are parameters of `Handle`.
- Goroutines, the `sync.WaitGroup` and `provider.RetryUntilTrue` are not modelled.
  - `WaitToReady` records a started poll. Its outcome is only logged.
  - In the code, `wg.Add(1)` runs inside the goroutine, so `wg.Wait()` may return
    before either poll has started. The model therefore does not make the run-perf
    dispatch wait for the builds.
- Logging, `GetIssueState` (only logged) and the `Logger` field of `Agent` are left
  out.
- A nil handler (`if h == nil`) cannot arise in the model. A failing
  `NewGithubClient` is outside it.
- Go's `(?i)` case folding is modelled for ASCII letters and the two non-ASCII
  characters that fold to ASCII letters (KELVIN SIGN, LONG S). The pattern's words
  hold no other letters.
- Go map iteration order is a parameter, `order`, one sequence per call. The model
  does not capture that the order may differ between calls. `CommentIsOrderFree`
  shows it cannot change a one-line label's comment.
- LabelRunPerf.Handler.CommentByLabel: the `sha` parameter is unused in the code and
  dropped. The error of `PostComment` is only logged, so it is not modelled.
- LabelRunPerf.Handler.Handle: `ListAssociatedPR` is an input, the list of pull
  requests. The rejection text `verifyUser` builds there is never used, so only its
  allow/deny outcome is modelled.
- `handlePushComment`, `handleIssueComment` and the `newRunPerf`/`newOKToFusebench`/
  `newLabelRunPerf` client construction are thin wrappers. Only what they build is
  modelled, as the constructors.
- `RegisterPushHandler` is not declared in chatbots/plugins/plugins.go, so label-run-perf
  registration is not modelled.
- The webhook server (chatbots/hook/server.go), the status ingestion endpoint,
  leader election itself and the rest of chatbots/cmd/main.go are not part of this
  model. Only the endpoint rewrite and the lease timings are.
- Endpoint.LeaseOrdered: client-go's jitter factor of 1.2 is written over integers as
  `5 * RenewDeadline > 6 * RetryPeriod`. client-go is not part of this model.

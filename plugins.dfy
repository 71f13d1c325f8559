/** The plugin registry of chatbots/plugins/plugins.go: the package-level map from a
  * plugin's name to its issue comment handler, filled by each plugin's `init`, and
  * the `Agent` every handler receives. */
module Plugins {
  import opened Wrappers
  import Github
  import Meta

  /** The names the issue comment plugins register under (`pluginName` of each package). */
  const RunPerfPlugin := "run-perf"
  const BuildDockerPlugin := "build-docker"
  const FusebenchPlugin := "fusebench-local"

  /** An `IssueCommentHandler` is a Go function value; the model names the plugin whose
    * `handleIssueComment` it is. */
  datatype IssueCommentHandler = HandleIssueComment(plugin: string)

  /** The storage backends `Store` may point to; main.go builds a file storage under "./tmp". */
  datatype StorageBackend = FileStorage(basePath: string)

  /** `Agent`, each field that may be nil as an option (None for nil); the logger is not modelled. */
  datatype Agent = Agent(
    githubClient: Option<Github.GithubClient>,
    store: Option<StorageBackend>,
    metaStore: Option<Meta.MetaStore>)

  /** `NewAgent`: keeps the client and the meta store it is given and sets no storage. */
  function NewAgent(gitClient: Option<Github.GithubClient>, metaStore: Option<Meta.MetaStore>): (agent: Agent)
    ensures agent.githubClient == gitClient && agent.metaStore == metaStore && agent.store.None?
  {
    Agent(gitClient, None, metaStore)
  }

  /** `IssueCommentHandlers` together with `RegisterIssueCommentHandler`, its only writer. */
  class Registry {
    var handlers: map<string, IssueCommentHandler>

    /** The map literal the package variable starts as. */
    constructor ()
      ensures handlers == map[]
    {
      handlers := map[];
    }

    /** `RegisterIssueCommentHandler`: `name` now maps to `fn`, replacing any earlier handler
      * of that name; no other entry changes; the map grows by one exactly for a new name. */
    method Register(name: string, fn: IssueCommentHandler)
      modifies this
      ensures handlers == old(handlers)[name := fn]
      ensures name in handlers && handlers[name] == fn
      ensures forall n :: n != name ==> (n in handlers <==> n in old(handlers))
      ensures forall n :: n != name && n in old(handlers) ==> handlers[n] == old(handlers)[n]
      ensures |handlers| == if name in old(handlers) then |old(handlers)| else |old(handlers)| + 1
    {
      UpdateSize(handlers, name, fn);
      handlers := handlers[name := fn];
    }
  }

  /** Writing a key adds one entry exactly when the key is new. */
  lemma UpdateSize<V>(m: map<string, V>, k: string, v: V)
    ensures |m[k := v]| == if k in m then |m| else |m| + 1
  {
    if k in m {
      assert m[k := v].Keys == m.Keys;
    } else {
      assert m[k := v].Keys == m.Keys + {k};
    }
  }

  /** The registry after the registrations `regs`, in order, starting from `m`. */
  function Registered(m: map<string, IssueCommentHandler>, regs: seq<(string, IssueCommentHandler)>): map<string, IssueCommentHandler>
    decreases |regs|
  {
    if regs == [] then m else Registered(m[regs[0].0 := regs[0].1], regs[1..])
  }

  /** The registered names are the starting ones and those of the registrations. */
  lemma {:induction false} RegisteredNames(m: map<string, IssueCommentHandler>, regs: seq<(string, IssueCommentHandler)>, n: string)
    ensures n in Registered(m, regs) <==> n in m || exists j :: 0 <= j < |regs| && regs[j].0 == n
    decreases |regs|
  {
    if regs != [] {
      RegisteredNames(m[regs[0].0 := regs[0].1], regs[1..], n);
      if exists j :: 0 <= j < |regs[1..]| && regs[1..][j].0 == n {
        var j :| 0 <= j < |regs[1..]| && regs[1..][j].0 == n;
        assert regs[j + 1].0 == n;
      }
      if exists j :: 0 <= j < |regs| && regs[j].0 == n {
        var j :| 0 <= j < |regs| && regs[j].0 == n;
        assert j == 0 || regs[1..][j - 1].0 == n;
      }
    }
  }

  /** Last writer wins: a name maps to the handler of its last registration. */
  lemma {:induction false} LastWriterWins(m: map<string, IssueCommentHandler>, regs: seq<(string, IssueCommentHandler)>, i: nat)
    requires i < |regs| && forall j :: i < j < |regs| ==> regs[j].0 != regs[i].0
    ensures regs[i].0 in Registered(m, regs) && Registered(m, regs)[regs[i].0] == regs[i].1
    decreases |regs|
  {
    if i == 0 {
      Untouched(m[regs[0].0 := regs[0].1], regs[1..], regs[0].0);
    } else {
      LastWriterWins(m[regs[0].0 := regs[0].1], regs[1..], i - 1);
    }
  }

  /** A name no registration uses keeps its entry. */
  lemma {:induction false} Untouched(m: map<string, IssueCommentHandler>, regs: seq<(string, IssueCommentHandler)>, n: string)
    requires forall j :: 0 <= j < |regs| ==> regs[j].0 != n
    ensures (n in Registered(m, regs) <==> n in m)
    ensures n in m ==> Registered(m, regs)[n] == m[n]
    decreases |regs|
  {
    if regs != [] {
      Untouched(m[regs[0].0 := regs[0].1], regs[1..], n);
    }
  }

  /** The three issue comment plugins' registrations. */
  const PluginRegistrations: seq<(string, IssueCommentHandler)> := [
    (RunPerfPlugin, HandleIssueComment(RunPerfPlugin)),
    (BuildDockerPlugin, HandleIssueComment(BuildDockerPlugin)),
    (FusebenchPlugin, HandleIssueComment(FusebenchPlugin))]

  /** When every starting entry and every registration files a plugin's handler under
    * that plugin's name, so does the resulting registry. */
  lemma {:induction false} SelfNamed(m: map<string, IssueCommentHandler>, regs: seq<(string, IssueCommentHandler)>)
    requires forall k :: k in m ==> m[k] == HandleIssueComment(k)
    requires forall j :: 0 <= j < |regs| ==> regs[j].1 == HandleIssueComment(regs[j].0)
    ensures forall k :: k in Registered(m, regs) ==> Registered(m, regs)[k] == HandleIssueComment(k)
    decreases |regs|
  {
    if regs != [] {
      SelfNamed(m[regs[0].0 := regs[0].1], regs[1..]);
    }
  }

  /** Whatever order the packages' `init` functions run in, the registry ends with exactly
    * the three plugins, each under its own name. */
  lemma PluginsRegistered(regs: seq<(string, IssueCommentHandler)>)
    requires multiset(regs) == multiset(PluginRegistrations)
    ensures Registered(map[], regs) == map[
      RunPerfPlugin := HandleIssueComment(RunPerfPlugin),
      BuildDockerPlugin := HandleIssueComment(BuildDockerPlugin),
      FusebenchPlugin := HandleIssueComment(FusebenchPlugin)]
  {
    var expected := map[
      RunPerfPlugin := HandleIssueComment(RunPerfPlugin),
      BuildDockerPlugin := HandleIssueComment(BuildDockerPlugin),
      FusebenchPlugin := HandleIssueComment(FusebenchPlugin)];
    var r := Registered(map[], regs);
    forall j | 0 <= j < |regs| ensures regs[j] in PluginRegistrations {
      assert regs[j] in multiset(PluginRegistrations);
    }
    SelfNamed(map[], regs);
    forall n ensures n in r <==> n in expected {
      RegisteredNames(map[], regs, n);
      if n in expected {
        var reg := (n, HandleIssueComment(n));
        assert reg in PluginRegistrations;
        assert reg in multiset(regs);
        var j :| 0 <= j < |regs| && regs[j] == reg;
      }
    }
  }
}

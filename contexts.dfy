/**
 * The kube-contexts endpoint: find the kubeconfig file, list its contexts,
 * mark the active one and move it to the front.
 */
module Contexts {
  import opened Wrappers
  import opened Strings

  datatype NamedContext = NamedContext(name: string, cluster: string, authInfo: string, namespace: string)

  predicate DistinctNames(cs: seq<NamedContext>) {
    forall i, j | 0 <= i < j < |cs| :: cs[i].name != cs[j].name
  }

  /**
   * A kubeconfig's context map, listed in the order a Go map happens to iterate
   * it: any order, each name once.
   */
  type ContextList = cs: seq<NamedContext> | DistinctNames(cs)

  datatype Kubeconfig = Kubeconfig(currentContext: string, contexts: ContextList)

  /** The kubeconfig defines a context of that name. */
  predicate HasContext(kc: Kubeconfig, name: string) {
    exists i | 0 <= i < |kc.contexts| :: kc.contexts[i].name == name
  }

  datatype ContextInfo = ContextInfo(name: string, cluster: string, user: string, namespace: string, isCurrent: bool)

  datatype ContextsResponse = ContextsResponse(contexts: seq<ContextInfo>, currentContext: string)

  /** The endpoint's answer: 404 without a path, 500 when the file does not load, else the list. */
  datatype Outcome = NotFound | LoadFailed | Listed(response: ContextsResponse)

  /** The kubeconfig path: configured, else under the home directory, with "~" expanded, else `$KUBECONFIG`. */
  function ResolvedPath(configured: string, home: string, kubeconfigEnv: string): (r: string)
    ensures r == "" <==> configured == "" && home == "" && kubeconfigEnv == ""
    ensures configured != "" && !HasPrefix(configured, "~") ==> r == configured
    ensures HasPrefix(configured, "~") && home != "" ==> r == home + configured[1..]
    ensures HasPrefix(configured, "~") && home == "" ==> r == configured
    ensures configured == "" && home != "" && !HasPrefix(home, "~") ==> r == home + "/.kube/config"
    ensures configured == "" && home == "" ==> r == kubeconfigEnv
  {
    var path := if configured != "" then configured else if home != "" then home + "/.kube/config" else "";
    var expanded := if HasPrefix(path, "~") && home != "" then home + path[1..] else path;
    if expanded == "" then kubeconfigEnv else expanded
  }

  /** The path steps of `ListContexts`, in the order the handler takes them. */
  method ResolvePath(configured: string, home: string, kubeconfigEnv: string) returns (path: string)
    ensures path == ResolvedPath(configured, home, kubeconfigEnv)
  {
    path := configured;
    if path == "" {
      if home != "" {
        path := home + "/.kube/config";
      }
    }
    if |path| > 0 && path[0] == '~' {
      if home != "" {
        path := home + path[1..];
      }
    }
    if kubeconfigEnv != "" && path == "" {
      path := kubeconfigEnv;
    }
  }

  /** The configured context wins over the kubeconfig's own current-context. */
  function ActiveContext(configured: string, kc: Kubeconfig): (r: string)
    ensures configured != "" ==> r == configured
    ensures configured == "" ==> r == kc.currentContext
  {
    if configured != "" then configured else kc.currentContext
  }

  function Info(c: NamedContext, active: string): ContextInfo {
    ContextInfo(c.name, c.cluster, c.authInfo, c.namespace, c.name == active)
  }

  /** The list as built, before reordering: one entry per context, current iff named `active`. */
  function Infos(cs: seq<NamedContext>, active: string): (r: seq<ContextInfo>)
    ensures |r| == |cs|
    ensures forall i | 0 <= i < |cs| :: r[i] == Info(cs[i], active)
  {
    seq(|cs|, i requires 0 <= i < |cs| => Info(cs[i], active))
  }

  /** Since names are distinct, at most one entry is marked current. */
  lemma AtMostOneCurrent(cs: ContextList, active: string, i: int, j: int)
    requires 0 <= i < |cs| && 0 <= j < |cs|
    requires Infos(cs, active)[i].isCurrent && Infos(cs, active)[j].isCurrent
    ensures i == j
  {
  }

  /** An entry is marked exactly when the active context is one of the kubeconfig's. */
  lemma SomeCurrentIff(cs: ContextList, active: string)
    ensures (exists i | 0 <= i < |cs| :: Infos(cs, active)[i].isCurrent)
            <==> exists i | 0 <= i < |cs| :: cs[i].name == active
  {
    if exists i | 0 <= i < |cs| :: cs[i].name == active {
      var i :| 0 <= i < |cs| && cs[i].name == active;
      assert Infos(cs, active)[i].isCurrent;
    }
  }

  /** Index of the first entry marked current, or `|s|`. */
  function FirstCurrent(s: seq<ContextInfo>): (r: nat)
    ensures r <= |s|
    ensures r < |s| ==> s[r].isCurrent
    ensures forall j | 0 <= j < r :: !s[j].isCurrent
  {
    if |s| == 0 then 0
    else if s[0].isCurrent then 0
    else
      var r := FirstCurrent(s[1..]);
      assert forall j | 1 <= j < 1 + r :: s[j] == s[1..][j - 1];
      1 + r
  }

  function Swap(s: seq<ContextInfo>, i: nat, j: nat): (r: seq<ContextInfo>)
    requires i < |s| && j < |s|
    ensures |r| == |s| && r[i] == s[j] && r[j] == s[i]
    ensures forall k | 0 <= k < |s| && k != i && k != j :: r[k] == s[k]
    ensures multiset(r) == multiset(s)
  {
    s[i := s[j]][j := s[i]]
  }

  /**
   * The list after the reordering loop: the first current entry and the entry
   * at index 0 trade places; nothing else moves.
   */
  function CurrentFirst(s: seq<ContextInfo>): (r: seq<ContextInfo>)
    ensures |r| == |s| && multiset(r) == multiset(s)
    ensures FirstCurrent(s) < |s| ==> r[0].isCurrent && r[0] == s[FirstCurrent(s)] && r[FirstCurrent(s)] == s[0]
    ensures forall k | 0 <= k < |s| && k != 0 && k != FirstCurrent(s) :: r[k] == s[k]
    ensures FirstCurrent(s) == |s| ==> r == s
  {
    var i := FirstCurrent(s);
    if i < |s| then Swap(s, 0, i) else s
  }

  /** The reordering loop: find the first current entry, swap it into index 0, stop. */
  method PutCurrentFirst(a: array<ContextInfo>)
    modifies a
    ensures a[..] == CurrentFirst(old(a[..]))
  {
    var i := 0;
    while i < a.Length
      invariant 0 <= i <= a.Length
      invariant a[..] == old(a[..])
      invariant forall j | 0 <= j < i :: !a[j].isCurrent
    {
      if a[i].isCurrent {
        assert FirstCurrent(a[..]) == i;
        a[0], a[i] := a[i], a[0];
        return;
      }
      i := i + 1;
    }
    assert FirstCurrent(a[..]) == a.Length;
  }

  /** The context list of the response, with the active context's entry first when it has one. */
  function ResponseContexts(kc: Kubeconfig, active: string): (r: seq<ContextInfo>)
    ensures multiset(r) == multiset(Infos(kc.contexts, active))
    ensures HasContext(kc, active) ==> r[0].isCurrent && r[0].name == active
  {
    var infos := Infos(kc.contexts, active);
    SomeCurrentIff(kc.contexts, active);
    CurrentFirst(infos)
  }

  /** `ListContexts`: the loader stands for reading and parsing the kubeconfig file. */
  method ListContexts(kubeconfigPath: string, currentContext: string, home: string, kubeconfigEnv: string,
                      load: string -> Option<Kubeconfig>)
    returns (r: Outcome)
    ensures ResolvedPath(kubeconfigPath, home, kubeconfigEnv) == "" <==> r == NotFound
    ensures ResolvedPath(kubeconfigPath, home, kubeconfigEnv) != "" ==>
      (load(ResolvedPath(kubeconfigPath, home, kubeconfigEnv)).None? <==> r == LoadFailed)
    ensures r.Listed? ==>
      var kc := load(ResolvedPath(kubeconfigPath, home, kubeconfigEnv)).value;
      && r.response.currentContext == ActiveContext(currentContext, kc)
      && r.response.contexts == ResponseContexts(kc, ActiveContext(currentContext, kc))
  {
    var path := ResolvePath(kubeconfigPath, home, kubeconfigEnv);
    if path == "" {
      return NotFound;
    }
    var loaded := load(path);
    if loaded.None? {
      return LoadFailed;
    }
    var cfg := loaded.value;
    var activeContext := currentContext;
    if activeContext == "" {
      activeContext := cfg.currentContext;
    }

    var contexts: seq<ContextInfo> := [];
    for k := 0 to |cfg.contexts|
      invariant contexts == Infos(cfg.contexts[..k], activeContext)
    {
      var ctx := cfg.contexts[k];
      contexts := contexts + [ContextInfo(ctx.name, ctx.cluster, ctx.authInfo, ctx.namespace, ctx.name == activeContext)];
    }
    assert cfg.contexts[..|cfg.contexts|] == cfg.contexts;

    var slice := new ContextInfo[|contexts|](j requires 0 <= j < |contexts| reads {} => contexts[j]);
    assert slice[..] == contexts;
    PutCurrentFirst(slice);
    return Listed(ContextsResponse(slice[..], activeContext));
  }
}

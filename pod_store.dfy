/**
 * The web client's pod store: the filters, the list, and its loading state.
 * The two list requests `loadPods` awaits together are one abstract call of
 * the filters that settles once.
 */
module PodStore {
  import opened Wrappers
  import opened ApiClient

  datatype Pod = Pod(
    id: string, name: string, namespace: string, status: string, restarts: int,
    nodeName: string, creationTimestamp: string, labels: map<string, string>)

  datatype ListResponse<+T> = ListResponse(items: seq<T>, count: int)

  datatype NamespaceSummary = NamespaceSummary(name: string, status: string, age: string)

  /** `Partial<PodFilter>`: a field is given or absent; `limit` and `offset` may be given as undefined. */
  datatype FilterUpdate = FilterUpdate(
    namespace: Option<string>, status: Option<string>, query: Option<string>,
    limit: Option<Option<int>>, offset: Option<Option<int>>)

  const NoUpdate := FilterUpdate(None, None, None, None, None)

  /** The first 200 pods of every namespace and status, unfiltered. */
  function DefaultFilters(): (f: PodFilter)
    ensures f.namespace == "all" && f.status == "all" && f.query == ""
    ensures f.limit == Some(200) && f.offset == Some(0)
  {
    PodFilter("all", "all", "", Some(200), Some(0))
  }

  /** `{ ...filters, ...updates }`: every given field replaces, every other field stays. */
  function MergeFilters(f: PodFilter, u: FilterUpdate): (r: PodFilter)
    ensures r.namespace == u.namespace.GetOr(f.namespace) && r.status == u.status.GetOr(f.status)
    ensures r.query == u.query.GetOr(f.query)
    ensures r.limit == u.limit.GetOr(f.limit) && r.offset == u.offset.GetOr(f.offset)
  {
    PodFilter(u.namespace.GetOr(f.namespace), u.status.GetOr(f.status), u.query.GetOr(f.query),
              u.limit.GetOr(f.limit), u.offset.GetOr(f.offset))
  }

  /** One update object holding the fields of `first`, overridden by those of `second`. */
  function Then(first: FilterUpdate, second: FilterUpdate): FilterUpdate {
    FilterUpdate(
      if second.namespace.Some? then second.namespace else first.namespace,
      if second.status.Some? then second.status else first.status,
      if second.query.Some? then second.query else first.query,
      if second.limit.Some? then second.limit else first.limit,
      if second.offset.Some? then second.offset else first.offset)
  }

  /** An empty update changes nothing, the same update twice is the update once, and two updates compose. */
  lemma MergeLaws(f: PodFilter, u: FilterUpdate, v: FilterUpdate)
    ensures MergeFilters(f, NoUpdate) == f
    ensures MergeFilters(MergeFilters(f, u), u) == MergeFilters(f, u)
    ensures MergeFilters(MergeFilters(f, u), v) == MergeFilters(f, Then(u, v))
  {
  }

  /** The namespace names of a list response, in order. */
  function Names(ns: seq<NamespaceSummary>): (r: seq<string>)
    ensures |r| == |ns| && forall i | 0 <= i < |ns| :: r[i] == ns[i].name
  {
    seq(|ns|, i requires 0 <= i < |ns| => ns[i].name)
  }

  datatype PodState = PodState(
    pods: seq<Pod>, total: int, namespaces: seq<string>, filters: PodFilter, isLoading: bool, error: Option<string>)

  function Initial(): (s: PodState)
    ensures s.pods == [] && s.total == 0 && s.namespaces == [] && s.filters == DefaultFilters()
    ensures !s.isLoading && s.error.None?
  {
    PodState([], 0, [], DefaultFilters(), false, None)
  }

  const LoadPodsFallback := "Unable to load pods"

  /** `loadPods`: loading with the error cleared, then the lists, or the message with the old lists kept. */
  function LoadPodsStep(s: PodState, fetched: Outcome<(ListResponse<Pod>, ListResponse<NamespaceSummary>)>): PodState {
    var b := s.(isLoading := true, error := None);
    match fetched
    case Resolved((pods, namespaces)) =>
      b.(pods := pods.items, total := pods.count, namespaces := Names(namespaces.items), isLoading := false)
    case Rejected(e) => b.(error := Some(Message(e, LoadPodsFallback)), isLoading := false)
  }

  /** A load keeps the filters and settles; success replaces the lists and clears the error, failure keeps the lists. */
  lemma LoadPodsOutcomes(s: PodState, fetched: Outcome<(ListResponse<Pod>, ListResponse<NamespaceSummary>)>)
    ensures var r := LoadPodsStep(s, fetched);
      && r.filters == s.filters && !r.isLoading
      && (fetched.Resolved? ==>
            && r.pods == fetched.value.0.items && r.total == fetched.value.0.count && r.error.None?
            && |r.namespaces| == |fetched.value.1.items|
            && forall i | 0 <= i < |r.namespaces| :: r.namespaces[i] == fetched.value.1.items[i].name)
      && (fetched.Rejected? ==>
            && r.pods == s.pods && r.total == s.total && r.namespaces == s.namespaces
            && r.error == Some(Message(fetched.reason, LoadPodsFallback)))
  {
  }

  class Store {
    var pods: seq<Pod>
    var total: int
    var namespaces: seq<string>
    var filters: PodFilter
    var isLoading: bool
    var error: Option<string>

    function State(): PodState
      reads this
    {
      PodState(pods, total, namespaces, filters, isLoading, error)
    }

    constructor ()
      ensures State() == Initial()
    {
      pods, total, namespaces := [], 0, [];
      filters := DefaultFilters();
      isLoading, error := false, None;
    }

    /** `loadPods`, requesting with the filters it reads after setting the loading flag. */
    method LoadPods(fetch: PodFilter -> Outcome<(ListResponse<Pod>, ListResponse<NamespaceSummary>)>)
      modifies this
      ensures State() == LoadPodsStep(old(State()), fetch(old(filters)))
    {
      isLoading, error := true, None;
      var current := filters;
      var fetched := fetch(current);
      match fetched
      case Resolved((podsResponse, namespacesResponse)) =>
        pods, total := podsResponse.items, podsResponse.count;
        namespaces := Names(namespacesResponse.items);
        isLoading := false;
      case Rejected(e) =>
        error, isLoading := Some(Message(e, LoadPodsFallback)), false;
    }

    /** `setFilters`: merge the update, then reload with the merged filters. */
    method SetFilters(updates: FilterUpdate,
                      fetch: PodFilter -> Outcome<(ListResponse<Pod>, ListResponse<NamespaceSummary>)>)
      modifies this
      ensures filters == MergeFilters(old(filters), updates)
      ensures State() == LoadPodsStep(old(State()).(filters := MergeFilters(old(filters), updates)),
                                      fetch(MergeFilters(old(filters), updates)))
    {
      filters := MergeFilters(filters, updates);
      LoadPods(fetch);
    }
  }
}

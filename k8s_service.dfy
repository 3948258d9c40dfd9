/**
 * The read-side of the cluster service: listing pods with filters and
 * pagination, pod and deployment details, and the small summarisers they use.
 * Informer caches become input sequences in the order their listers return them.
 */
module K8sService {
  import opened Wrappers
  import opened Strings
  import opened Config

  const ZeroTime: Time := 0

  const Day: int := 24 * Hour
  const Month: int := 30 * Day

  /** Go's `int32` and its wrap-around. */
  const TwoTo31: int := 0x8000_0000
  const TwoTo32: int := 0x1_0000_0000
  newtype int32 = x: int | -0x8000_0000 <= x < 0x8000_0000

  function Wrap32(x: int): (r: int32)
    ensures (r as int - x) % TwoTo32 == 0
  {
    var r := (x + TwoTo31) % TwoTo32 - TwoTo31;
    assert x + TwoTo31 == TwoTo32 * ((x + TwoTo31) / TwoTo32) + (x + TwoTo31) % TwoTo32;
    r as int32
  }

  datatype StateDetail = StateDetail(reason: string, message: string)

  /** `corev1.ContainerState`: three optional parts, normally one of them set. */
  datatype ContainerStateSpec = ContainerStateSpec(
    running: Option<Time>,            // started-at of a running container
    waiting: Option<StateDetail>,
    terminated: Option<StateDetail>)

  datatype ContainerStatus = ContainerStatus(
    name: string, image: string, ready: bool, restartCount: int32, state: ContainerStateSpec)

  datatype Condition = Condition(
    condType: string, status: string, reason: string, message: string, lastTime: Time)

  datatype Pod = Pod(
    uid: string, name: string, namespace: string, phase: string, nodeName: string,
    labels: map<string, string>, creation: Time,
    containerStatuses: seq<ContainerStatus>, conditions: seq<Condition>,
    hostIP: string, podIP: string)

  datatype Event = Event(
    namespace: string, involvedName: string, eventType: string, reason: string,
    message: string, count: int32, eventTime: Time, lastTimestamp: Time)

  datatype Deployment = Deployment(
    name: string, namespace: string, readyReplicas: int32, replicas: int32,
    creation: Time, conditions: seq<Condition>)

  datatype ListOptions = ListOptions(
    namespace: string, status: string, labelSelector: string, query: string,
    limit: int, offset: int)

  datatype PodSummary = PodSummary(
    id: string, name: string, namespace: string, status: string, restarts: int32,
    nodeName: string, creation: Time, labels: map<string, string>)

  datatype EventSummary = EventSummary(
    eventType: string, reason: string, message: string, count: int32,
    firstTimestamp: Time, lastTimestamp: Time)

  datatype ContainerView = ContainerView(
    name: string, image: string, ready: bool, restartCount: int32,
    state: string, reason: string, message: string)

  datatype PodDetail = PodDetail(
    summary: PodSummary, containers: seq<ContainerView>, conditions: seq<Condition>,
    events: seq<EventSummary>, nodeIP: string, podIP: string)

  datatype DeploymentSummary = DeploymentSummary(
    name: string, namespace: string, readyReplicas: int32, replicas: int32, updatedAt: Time)

  datatype DeploymentDetail = DeploymentDetail(summary: DeploymentSummary, conditions: seq<Condition>)

  datatype ServiceError =
    | InvalidLabelSelector
    | Cancelled
    | PodNotFound
    | NamespaceRequired
    | DeploymentNotFound

  /** A parsed label selector: the label sets it accepts. */
  type Selector = map<string, string> -> bool

  // ---------------------------------------------------------------- pagination

  /** The page size `paginate` uses: out-of-range limits fall back to 200. */
  function EffectiveLimit(limit: int): (r: int)
    ensures 1 <= r <= 1000
    ensures (1 <= limit <= 1000) <==> r == limit
    ensures !(1 <= limit <= 1000) ==> r == 200
  {
    if limit <= 0 || limit > 1000 then 200 else limit
  }

  function Min(a: int, b: int): int { if a <= b then a else b }

  /** `paginate`: `limit`, `offset` and `end` are reassigned step by step. */
  method Paginate(total: nat, offset: int, limit: int) returns (start: int, end: int)
    ensures 0 <= start <= end <= total
    ensures start == if offset < 0 then 0 else Min(offset, total)
    ensures end - start == Min(EffectiveLimit(limit), total - start)
  {
    var lim := limit;
    var off := offset;
    if lim <= 0 || lim > 1000 {
      lim := 200;
    }
    if off < 0 {
      off := 0;
    }
    if off > total {
      off := total;
    }
    end := off + lim;
    if end > total {
      end := total;
    }
    start := off;
  }

  // ---------------------------------------------------------------- pod filters

  /** `matchesPodQuery`, for a query that is already lower-cased and trimmed. */
  predicate MatchesPodQuery(pod: Pod, query: string)
    ensures query == "" ==> MatchesPodQuery(pod, query)
  {
    assert query == "" ==> OccursAt(query, ToLower(pod.name), 0);
    || IsSubstring(query, ToLower(pod.name))
    || IsSubstring(query, ToLower(pod.namespace))
    || (pod.nodeName != "" && IsSubstring(query, ToLower(pod.nodeName)))
    || exists k | k in pod.labels ::
         IsSubstring(query, ToLower(k)) || IsSubstring(query, ToLower(pod.labels[k]))
  }

  /** Every piece of a lower-cased text is free of upper-case letters. */
  lemma LoweredHasNoUpper(sub: string, s: string)
    requires IsSubstring(sub, ToLower(s))
    ensures forall k | 0 <= k < |sub| :: !IsUpperAscii(sub[k])
  {
    var t := ToLower(s);
    var i :| 0 <= i <= |t| - |sub| && OccursAt(sub, t, i);
    forall k | 0 <= k < |sub| ensures !IsUpperAscii(sub[k]) {
      assert sub[k] == t[i + k];
    }
  }

  /**
   * The pod's fields are lower-cased before the search, so a query holding an
   * upper-case letter matches no pod; `ListPods` lower-cases the query first.
   */
  lemma UpperCaseQueryNeverMatches(pod: Pod, query: string, j: int)
    requires 0 <= j < |query| && IsUpperAscii(query[j])
    ensures !MatchesPodQuery(pod, query)
  {
    if MatchesPodQuery(pod, query) {
      if IsSubstring(query, ToLower(pod.name)) {
        LoweredHasNoUpper(query, pod.name);
      } else if IsSubstring(query, ToLower(pod.namespace)) {
        LoweredHasNoUpper(query, pod.namespace);
      } else if pod.nodeName != "" && IsSubstring(query, ToLower(pod.nodeName)) {
        LoweredHasNoUpper(query, pod.nodeName);
      } else {
        var k :| k in pod.labels && (IsSubstring(query, ToLower(k)) || IsSubstring(query, ToLower(pod.labels[k])));
        if IsSubstring(query, ToLower(k)) {
          LoweredHasNoUpper(query, k);
        } else {
          LoweredHasNoUpper(query, pod.labels[k]);
        }
      }
    }
  }

  /** The phase filter is off for "" and "all", else a case-insensitive exact match. */
  predicate PhaseAccepted(pod: Pod, statusFilter: string) {
    statusFilter == "" || statusFilter == "all" || ToLower(pod.phase) == statusFilter
  }

  /** Both per-pod tests of the `ListPods` loop, with the filters already normalised. */
  predicate PodPasses(pod: Pod, statusFilter: string, query: string) {
    PhaseAccepted(pod, statusFilter) && (query == "" || MatchesPodQuery(pod, query))
  }

  /** The namespace filter is off for "" and "all". */
  predicate InNamespace(pod: Pod, namespace: string) {
    namespace == "" || namespace == "all" || pod.namespace == namespace
  }

  /** The sum of the container restart counts, with Go's `int32` wrap-around. */
  function RestartSum(statuses: seq<ContainerStatus>): int {
    if statuses == [] then 0
    else RestartSum(statuses[..|statuses| - 1]) + statuses[|statuses| - 1].restartCount as int
  }

  function RestartTotal(pod: Pod): int32 {
    Wrap32(RestartSum(pod.containerStatuses))
  }

  lemma WrapAdd(a: int, b: int)
    ensures Wrap32(Wrap32(a) as int + b) == Wrap32(a + b)
  {
    var x := Wrap32(a) as int + b;
    var y := a + b;
    var k := (x - y) / TwoTo32;
    assert x - y == TwoTo32 * k;
    var qx, rx := (x + TwoTo31) / TwoTo32, (x + TwoTo31) % TwoTo32;
    var qy, ry := (y + TwoTo31) / TwoTo32, (y + TwoTo31) % TwoTo32;
    assert x + TwoTo31 == TwoTo32 * qx + rx;
    assert y + TwoTo31 == TwoTo32 * qy + ry;
    assert rx - ry == TwoTo32 * (qy - qx + k);
  }

  lemma Wrap32Identity(x: int)
    requires -TwoTo31 <= x < TwoTo31
    ensures Wrap32(x) as int == x
  {
  }

  /** `totalRestarts`: a running `int32` sum over the container statuses. */
  method TotalRestarts(pod: Pod) returns (restarts: int32)
    ensures restarts == RestartTotal(pod)
  {
    var statuses := pod.containerStatuses;
    restarts := 0;
    var i := 0;
    while i < |statuses|
      invariant 0 <= i <= |statuses|
      invariant restarts == Wrap32(RestartSum(statuses[..i]))
    {
      assert statuses[..i + 1][..i] == statuses[..i];
      WrapAdd(RestartSum(statuses[..i]), statuses[i].restartCount as int);
      restarts := Wrap32(restarts as int + statuses[i].restartCount as int);
      i := i + 1;
    }
    assert statuses[..i] == statuses;
  }

  /** When the true sum fits in an `int32`, no wrap-around happens. */
  lemma RestartTotalExact(pod: Pod)
    requires -TwoTo31 <= RestartSum(pod.containerStatuses) < TwoTo31
    ensures RestartTotal(pod) as int == RestartSum(pod.containerStatuses)
  {
    Wrap32Identity(RestartSum(pod.containerStatuses));
  }

  function ToPodSummary(pod: Pod, restarts: int32): (r: PodSummary)
    ensures r.id == pod.uid && r.name == pod.name && r.namespace == pod.namespace && r.status == pod.phase
    ensures r.nodeName == pod.nodeName && r.creation == pod.creation && r.labels == pod.labels
    ensures r.restarts == restarts
  {
    PodSummary(pod.uid, pod.name, pod.namespace, pod.phase, restarts,
               pod.nodeName, pod.creation, pod.labels)
  }

  /** The pods that reach the filter loop: namespace and label selector, lister order. */
  function Listed(store: seq<Pod>, namespace: string, selector: Selector): seq<Pod> {
    if store == [] then []
    else
      var rest := Listed(store[..|store| - 1], namespace, selector);
      var pod := store[|store| - 1];
      if InNamespace(pod, namespace) && selector(pod.labels) then rest + [pod] else rest
  }

  /** The summaries of the listed pods that pass the phase and query filters, in order. */
  function Filtered(pods: seq<Pod>, statusFilter: string, query: string): (r: seq<PodSummary>)
    ensures |r| <= |pods|
  {
    if pods == [] then []
    else
      var rest := Filtered(pods[..|pods| - 1], statusFilter, query);
      var pod := pods[|pods| - 1];
      if PodPasses(pod, statusFilter, query) then rest + [ToPodSummary(pod, RestartTotal(pod))]
      else rest
  }

  lemma FilteredStep(pods: seq<Pod>, i: nat, statusFilter: string, query: string)
    requires i < |pods|
    ensures Filtered(pods[..i + 1], statusFilter, query) ==
      if PodPasses(pods[i], statusFilter, query)
      then Filtered(pods[..i], statusFilter, query) + [ToPodSummary(pods[i], RestartTotal(pods[i]))]
      else Filtered(pods[..i], statusFilter, query)
  {
    assert pods[..i + 1][..i] == pods[..i];
  }

  /** Every summary `Filtered` keeps comes from a pod that passes both filters. */
  lemma {:induction false} FilteredSound(pods: seq<Pod>, statusFilter: string, query: string, s: PodSummary)
    requires s in Filtered(pods, statusFilter, query)
    ensures exists pod | pod in pods :: PodPasses(pod, statusFilter, query) && s == ToPodSummary(pod, RestartTotal(pod))
  {
    var init := pods[..|pods| - 1];
    var pod := pods[|pods| - 1];
    if s in Filtered(init, statusFilter, query) {
      FilteredSound(init, statusFilter, query, s);
      var p :| p in init && PodPasses(p, statusFilter, query) && s == ToPodSummary(p, RestartTotal(p));
      assert p in pods;
    } else {
      assert pod in pods;
    }
  }

  /** ... and every pod that passes is kept. */
  lemma {:induction false} FilteredComplete(pods: seq<Pod>, statusFilter: string, query: string, pod: Pod)
    requires pod in pods && PodPasses(pod, statusFilter, query)
    ensures ToPodSummary(pod, RestartTotal(pod)) in Filtered(pods, statusFilter, query)
  {
    var init := pods[..|pods| - 1];
    if pod != pods[|pods| - 1] {
      assert pods == init + [pods[|pods| - 1]];
      FilteredComplete(init, statusFilter, query, pod);
    }
  }

  datatype PodPage = PodPage(items: seq<PodSummary>, total: nat)

  /** The label selector `ListPods` lists with: everything when empty, else the parsed one. */
  function SelectorFor(labelSelector: string, parseSelector: string -> Option<Selector>): Option<Selector> {
    if labelSelector == "" then Some(Everything) else parseSelector(labelSelector)
  }

  /** `labels.Everything()`: the selector that accepts every label set. */
  predicate Everything(labels: map<string, string>) { true }

  /** How `ListPods` prepares the status filter and the query: lower-cased, then trimmed. */
  function Normalize(s: string): string {
    TrimSpace(ToLower(s))
  }

  /** Every pod summary that passes all of `opts`'s filters, before pagination. */
  function AllMatching(store: seq<Pod>, opts: ListOptions, selector: Selector): seq<PodSummary> {
    Filtered(Listed(store, opts.namespace, selector), Normalize(opts.status), Normalize(opts.query))
  }

  /** `items` is the page of `all` that `offset` and `limit` select, in order. */
  predicate IsPage(items: seq<PodSummary>, all: seq<PodSummary>, offset: int, limit: int) {
    var start := if offset < 0 then 0 else Min(offset, |all|);
    && start + |items| <= |all|
    && items == all[start..start + |items|]
    && |items| == Min(EffectiveLimit(limit), |all| - start)
  }

  /** The filter loop of `ListPods`: phase test, then query test, then append the summary. */
  method FilterPods(pods: seq<Pod>, statusFilter: string, query: string) returns (filtered: seq<PodSummary>)
    ensures filtered == Filtered(pods, statusFilter, query)
  {
    filtered := [];
    var i := 0;
    while i < |pods|
      invariant 0 <= i <= |pods|
      invariant filtered == Filtered(pods[..i], statusFilter, query)
    {
      var pod := pods[i];
      FilteredStep(pods, i, statusFilter, query);
      if statusFilter != "" && statusFilter != "all" && ToLower(pod.phase) != statusFilter {
        i := i + 1;
        continue;
      }
      if query != "" && !MatchesPodQuery(pod, query) {
        i := i + 1;
        continue;
      }
      var restarts := TotalRestarts(pod);
      filtered := filtered + [ToPodSummary(pod, restarts)];
      i := i + 1;
    }
    assert pods[..i] == pods;
  }

  /** `Service.ListPods`: filter the listed pods, count them, then cut out one page. */
  method ListPods(store: seq<Pod>, opts: ListOptions,
                  parseSelector: string -> Option<Selector>, cancelled: bool)
    returns (r: Result<PodPage, ServiceError>)
    ensures SelectorFor(opts.labelSelector, parseSelector).None? <==> r == Err(InvalidLabelSelector)
    ensures SelectorFor(opts.labelSelector, parseSelector).Some? ==> (r == Err(Cancelled) <==> cancelled)
    ensures r.Err? ==> r.error == InvalidLabelSelector || r.error == Cancelled
    ensures r.Ok? ==>
      var all := AllMatching(store, opts, SelectorFor(opts.labelSelector, parseSelector).value);
      r.value.total == |all| && IsPage(r.value.items, all, opts.offset, opts.limit)
  {
    var selector: Selector := Everything;
    if opts.labelSelector != "" {
      var parsed := parseSelector(opts.labelSelector);
      if parsed.None? {
        return Err(InvalidLabelSelector);
      }
      selector := parsed.value;
    }
    var pods := Listed(store, opts.namespace, selector);
    if cancelled {
      return Err(Cancelled);
    }
    var query := Normalize(opts.query);
    var statusFilter := Normalize(opts.status);

    var filtered := FilterPods(pods, statusFilter, query);
    var total := |filtered|;
    var start, end := Paginate(total, opts.offset, opts.limit);
    assert selector == SelectorFor(opts.labelSelector, parseSelector).value;
    assert filtered == AllMatching(store, opts, selector);
    assert IsPage(filtered[start..end], filtered, opts.offset, opts.limit);
    return Ok(PodPage(filtered[start..end], total));
  }

  // ---------------------------------------------------------------- summarisers

  /** `nodeReadyStatus`: the first condition of type "Ready" decides. */
  function NodeReadyStatus(conditions: seq<Condition>): (r: string)
    ensures r == "Ready" || r == "NotReady" || r == "Unknown"
    ensures r == "Unknown" <==> forall i | 0 <= i < |conditions| :: conditions[i].condType != "Ready"
    ensures r == "Ready" <==>
      exists i | 0 <= i < |conditions| ::
        && conditions[i].condType == "Ready" && conditions[i].status == "True"
        && forall j | 0 <= j < i :: conditions[j].condType != "Ready"
  {
    if conditions == [] then "Unknown"
    else if conditions[0].condType == "Ready" then
      (if conditions[0].status == "True" then "Ready" else "NotReady")
    else
      var r := NodeReadyStatus(conditions[1..]);
      assert forall i | 1 <= i < |conditions| :: conditions[i] == conditions[1..][i - 1];
      r
  }

  /**
   * `t` is the deployment's last update: the latest condition update time when
   * one is after the zero time, else the creation time.
   */
  predicate IsLatestUpdate(deploy: Deployment, t: Time) {
    var conds := deploy.conditions;
    && ((forall i | 0 <= i < |conds| :: conds[i].lastTime <= ZeroTime) ==> t == deploy.creation)
    && ((exists i | 0 <= i < |conds| :: conds[i].lastTime > ZeroTime) ==>
         && (exists i | 0 <= i < |conds| :: conds[i].lastTime == t)
         && (forall i | 0 <= i < |conds| :: conds[i].lastTime <= t))
  }

  /** At most one instant is the last update of a deployment. */
  lemma LatestUpdateUnique(deploy: Deployment, t1: Time, t2: Time)
    requires IsLatestUpdate(deploy, t1) && IsLatestUpdate(deploy, t2)
    ensures t1 == t2
  {
    var conds := deploy.conditions;
    if exists i | 0 <= i < |conds| :: conds[i].lastTime > ZeroTime {
      var i1 :| 0 <= i1 < |conds| && conds[i1].lastTime == t1;
      var i2 :| 0 <= i2 < |conds| && conds[i2].lastTime == t2;
      assert t1 <= t2 && t2 <= t1;
    }
  }

  /** `latestDeploymentUpdate`: a running maximum over the condition update times. */
  method LatestDeploymentUpdate(deploy: Deployment) returns (t: Time)
    ensures IsLatestUpdate(deploy, t)
  {
    var conds := deploy.conditions;
    var last := ZeroTime;
    var i := 0;
    while i < |conds|
      invariant 0 <= i <= |conds|
      invariant last >= ZeroTime
      invariant forall k | 0 <= k < i :: conds[k].lastTime <= last
      invariant last == ZeroTime || exists k | 0 <= k < i :: conds[k].lastTime == last
      invariant last == ZeroTime ==> forall k | 0 <= k < i :: conds[k].lastTime <= ZeroTime
    {
      if conds[i].lastTime > last {
        last := conds[i].lastTime;
      }
      i := i + 1;
    }
    if last == ZeroTime {
      return deploy.creation;
    }
    return last;
  }

  datatype ContainerStateView = ContainerStateView(state: string, reason: string, message: string)

  /** `containerState`: running, then waiting, then terminated decide, in that order. */
  function ContainerState(cs: ContainerStatus): (r: ContainerStateView)
    ensures r.state == "Running" <==> cs.state.running.Some?
    ensures r.state == "Waiting" <==> cs.state.running.None? && cs.state.waiting.Some?
    ensures r.state == "Terminated" <==>
      cs.state.running.None? && cs.state.waiting.None? && cs.state.terminated.Some?
    ensures r.state == "Unknown" <==>
      cs.state.running.None? && cs.state.waiting.None? && cs.state.terminated.None?
    ensures cs.state.running.Some? ==>
      r.message == "" && (r.reason == "Started" <==> cs.state.running.value > ZeroTime) && (r.reason == "" || r.reason == "Started")
    ensures r.state == "Waiting" ==> r.reason == cs.state.waiting.value.reason && r.message == cs.state.waiting.value.message
    ensures r.state == "Terminated" ==> r.reason == cs.state.terminated.value.reason && r.message == cs.state.terminated.value.message
    ensures r.state == "Unknown" ==> r.reason == "" && r.message == ""
  {
    match cs.state
    case ContainerStateSpec(Some(started), _, _) =>
      ContainerStateView("Running", if started > ZeroTime then "Started" else "", "")
    case ContainerStateSpec(None, Some(w), _) => ContainerStateView("Waiting", w.reason, w.message)
    case ContainerStateSpec(None, None, Some(t)) => ContainerStateView("Terminated", t.reason, t.message)
    case ContainerStateSpec(None, None, None) => ContainerStateView("Unknown", "", "")
  }

  /** `humanizeDuration`: the largest unit that fits, with the count truncated. */
  function HumanizeDuration(d: int): (r: string)
    ensures d >= Minute ==> 2 <= |r| && r[|r| - 1] in {'m', 'h', 'd', 'o'}
  {
    if d < Minute then "just now"
    else if d < Hour then NatToDecimal(d / Minute) + "m"
    else if d < Day then NatToDecimal(d / Hour) + "h"
    else if d < Month then NatToDecimal(d / Day) + "d"
    else NatToDecimal(d / Month) + "mo"
  }

  /** `d / unit` counts the whole units in `d`, at least one and fewer than `bound`. */
  lemma {:induction false} TruncatedCount(d: int, unit: int, bound: nat)
    requires unit > 0 && unit <= d < bound * unit
    ensures 1 <= d / unit < bound && (d / unit) * unit <= d < (d / unit + 1) * unit
  {
    var q, r := d / unit, d % unit;
    assert d == q * unit + r && 0 <= r < unit;
    MulOrder(0, q, unit);
    MulOrder(q, bound, unit);
    assert (q + 1) * unit == q * unit + unit;
  }

  /** Multiplying by a positive number keeps the order of two integers. */
  lemma MulOrder(a: int, b: int, c: int)
    requires c > 0
    ensures a < b <==> a * c < b * c
  {
    if a < b {
      assert b * c == a * c + (b - a) * c;
    } else {
      assert a * c == b * c + (a - b) * c;
    }
  }

  /** Only durations under a minute read "just now"; every other result ends in a unit letter. */
  lemma HumanizeJustNow(d: int)
    ensures d < Minute <==> HumanizeDuration(d) == "just now"
  {
    var r := HumanizeDuration(d);
    if d >= Minute {
      assert r[|r| - 1] == 'm' || r[|r| - 1] == 'h' || r[|r| - 1] == 'd' || r[|r| - 1] == 'o';
      assert "just now"[7] == 'w';
    }
  }

  /** The count shown is the number of whole units in `d`, within the unit's range. */
  lemma HumanizeDurationRanges(d: int)
    ensures Minute <= d < Hour ==> exists n: nat | 1 <= n < 60 ::
      n * Minute <= d < (n + 1) * Minute && HumanizeDuration(d) == NatToDecimal(n) + "m"
    ensures Hour <= d < Day ==> exists n: nat | 1 <= n < 24 ::
      n * Hour <= d < (n + 1) * Hour && HumanizeDuration(d) == NatToDecimal(n) + "h"
    ensures Day <= d < Month ==> exists n: nat | 1 <= n < 30 ::
      n * Day <= d < (n + 1) * Day && HumanizeDuration(d) == NatToDecimal(n) + "d"
    ensures Month <= d ==> exists n: nat | 1 <= n ::
      n * Month <= d < (n + 1) * Month && HumanizeDuration(d) == NatToDecimal(n) + "mo"
  {
    if Minute <= d < Hour {
      HumanizeUnit(d, Minute, 60, "m");
    } else if Hour <= d < Day {
      HumanizeUnit(d, Hour, 24, "h");
    } else if Day <= d < Month {
      HumanizeUnit(d, Day, 30, "d");
    } else if Month <= d {
      var bound: nat := d / Month + 2;
      assert d < bound * Month by {
        assert d < (d / Month + 1) * Month;
      }
      HumanizeUnit(d, Month, bound, "mo");
    }
  }

  /** One range of `HumanizeDuration`: the result is the truncated count of `unit` followed by `suffix`. */
  lemma HumanizeUnit(d: int, unit: int, bound: nat, suffix: string)
    requires unit > 0 && unit <= d < bound * unit
    requires HumanizeDuration(d) == NatToDecimal(d / unit) + suffix
    ensures exists n: nat | 1 <= n < bound :: n * unit <= d < (n + 1) * unit && HumanizeDuration(d) == NatToDecimal(n) + suffix
  {
    TruncatedCount(d, unit, bound);
    var n: nat := d / unit;
    assert n * unit <= d < (n + 1) * unit;
  }

  // ---------------------------------------------------------------- details

  function FindPod(store: seq<Pod>, namespace: string, name: string): (r: Option<Pod>)
    ensures r.Some? ==> r.value in store && r.value.namespace == namespace && r.value.name == name
    ensures r.None? ==> forall p | p in store :: !(p.namespace == namespace && p.name == name)
  {
    if store == [] then None
    else if store[0].namespace == namespace && store[0].name == name then Some(store[0])
    else FindPod(store[1..], namespace, name)
  }

  function ToEventSummary(ev: Event): EventSummary {
    EventSummary(ev.eventType, ev.reason, ev.message, ev.count, ev.eventTime, ev.lastTimestamp)
  }

  /** The events of `namespace` about the object called `name`, in lister order. */
  function PodEvents(events: seq<Event>, namespace: string, name: string): (r: seq<EventSummary>)
    ensures |r| <= |events|
  {
    if events == [] then []
    else
      var rest := PodEvents(events[..|events| - 1], namespace, name);
      var ev := events[|events| - 1];
      if ev.namespace == namespace && ev.involvedName == name then rest + [ToEventSummary(ev)] else rest
  }

  function ToContainerView(cs: ContainerStatus): ContainerView {
    var st := ContainerState(cs);
    ContainerView(cs.name, cs.image, cs.ready, cs.restartCount, st.state, st.reason, st.message)
  }

  /** `Service.GetPod`: the pod, its containers and conditions, and the events about it. */
  method GetPod(store: seq<Pod>, events: seq<Event>, namespace: string, name: string)
    returns (r: Result<PodDetail, ServiceError>)
    ensures FindPod(store, namespace, name).None? <==> r == Err(PodNotFound)
    ensures r.Err? ==> r.error == PodNotFound
    ensures r.Ok? ==>
      var pod := FindPod(store, namespace, name).value;
      && r.value.summary == ToPodSummary(pod, RestartTotal(pod))
      && |r.value.containers| == |pod.containerStatuses|
      && (forall i | 0 <= i < |pod.containerStatuses| :: r.value.containers[i] == ToContainerView(pod.containerStatuses[i]))
      && r.value.conditions == pod.conditions
      && r.value.events == PodEvents(events, namespace, name)
      && r.value.nodeIP == pod.hostIP && r.value.podIP == pod.podIP
  {
    var found := FindPod(store, namespace, name);
    if found.None? {
      return Err(PodNotFound);
    }
    var pod := found.value;
    var filteredEvents: seq<EventSummary> := [];
    var i := 0;
    while i < |events|
      invariant 0 <= i <= |events|
      invariant filteredEvents == PodEvents(events[..i], namespace, name)
    {
      var ev := events[i];
      assert events[..i + 1][..i] == events[..i];
      if ev.namespace != namespace || ev.involvedName != name {
        i := i + 1;
        continue;
      }
      filteredEvents := filteredEvents + [ToEventSummary(ev)];
      i := i + 1;
    }
    assert events[..i] == events;
    var restarts := TotalRestarts(pod);
    var containers := seq(|pod.containerStatuses|,
      k requires 0 <= k < |pod.containerStatuses| => ToContainerView(pod.containerStatuses[k]));
    return Ok(PodDetail(ToPodSummary(pod, restarts), containers, pod.conditions,
                        filteredEvents, pod.hostIP, pod.podIP));
  }

  /** An event `GetPod` keeps: one in the pod's namespace about an object with the pod's name. */
  predicate IsPodEvent(ev: Event, namespace: string, name: string) {
    ev.namespace == namespace && ev.involvedName == name
  }

  /** The positions of the pod's events in the lister's list: every one of them, in increasing order. */
  function MatchingIndices(events: seq<Event>, namespace: string, name: string): (idx: seq<nat>)
    ensures forall k | 0 <= k < |idx| :: idx[k] < |events|
    ensures forall k, l | 0 <= k < l < |idx| :: idx[k] < idx[l]
    ensures forall i | 0 <= i < |events| :: i in idx <==> IsPodEvent(events[i], namespace, name)
  {
    if events == [] then []
    else
      var n := |events| - 1;
      var rest := MatchingIndices(events[..n], namespace, name);
      assert forall i | 0 <= i < n :: events[..n][i] == events[i];
      if IsPodEvent(events[n], namespace, name) then rest + [n] else rest
  }

  /** `GetPod`'s events are the summaries of the events at exactly the matching positions, in that order. */
  lemma {:induction false} PodEventsExact(events: seq<Event>, namespace: string, name: string)
    ensures |PodEvents(events, namespace, name)| == |MatchingIndices(events, namespace, name)|
    ensures forall k | 0 <= k < |MatchingIndices(events, namespace, name)| ::
      PodEvents(events, namespace, name)[k] == ToEventSummary(events[MatchingIndices(events, namespace, name)[k]])
  {
    if events != [] {
      var n := |events| - 1;
      var p := events[..n];
      PodEventsExact(p, namespace, name);
      var idxp := MatchingIndices(p, namespace, name);
      var rest := PodEvents(p, namespace, name);
      var idx := MatchingIndices(events, namespace, name);
      var r := PodEvents(events, namespace, name);
      var extra := if IsPodEvent(events[n], namespace, name) then [n] else [];
      assert idx == idxp + extra;
      assert r == rest + (if IsPodEvent(events[n], namespace, name) then [ToEventSummary(events[n])] else []);
      forall k | 0 <= k < |idx|
        ensures r[k] == ToEventSummary(events[idx[k]])
      {
        if k < |idxp| {
          assert idxp[k] < n && idx[k] == idxp[k];
          assert rest[k] == ToEventSummary(p[idxp[k]]);
        }
      }
    }
  }

  /** Every event of the pod is reported, and everything reported is an event of the pod. */
  lemma PodEventsComplete(events: seq<Event>, namespace: string, name: string)
    ensures forall i | 0 <= i < |events| && IsPodEvent(events[i], namespace, name) ::
      ToEventSummary(events[i]) in PodEvents(events, namespace, name)
    ensures forall s | s in PodEvents(events, namespace, name) ::
      exists i | 0 <= i < |events| :: IsPodEvent(events[i], namespace, name) && s == ToEventSummary(events[i])
  {
    PodEventsExact(events, namespace, name);
    var idx := MatchingIndices(events, namespace, name);
    var r := PodEvents(events, namespace, name);
    forall i | 0 <= i < |events| && IsPodEvent(events[i], namespace, name)
      ensures ToEventSummary(events[i]) in r
    {
      var k :| 0 <= k < |idx| && idx[k] == i;
      assert r[k] == ToEventSummary(events[i]);
    }
    forall s | s in r
      ensures exists i | 0 <= i < |events| :: IsPodEvent(events[i], namespace, name) && s == ToEventSummary(events[i])
    {
      var k :| 0 <= k < |r| && r[k] == s;
      assert idx[k] in idx;
    }
  }

  function FindDeployment(store: seq<Deployment>, namespace: string, name: string): (r: Option<Deployment>)
    ensures r.Some? ==> r.value in store && r.value.namespace == namespace && r.value.name == name
    ensures r.None? ==> forall d | d in store :: !(d.namespace == namespace && d.name == name)
  {
    if store == [] then None
    else if store[0].namespace == namespace && store[0].name == name then Some(store[0])
    else FindDeployment(store[1..], namespace, name)
  }

  /** `Service.GetDeployment`: a concrete namespace is required before any lookup. */
  method GetDeployment(store: seq<Deployment>, namespace: string, name: string)
    returns (r: Result<DeploymentDetail, ServiceError>)
    ensures (namespace == "" || namespace == "all") <==> r == Err(NamespaceRequired)
    ensures namespace != "" && namespace != "all" ==>
      (r == Err(DeploymentNotFound) <==> FindDeployment(store, namespace, name).None?)
    ensures r.Ok? ==>
      var d := FindDeployment(store, namespace, name).value;
      && r.value.summary.name == d.name && r.value.summary.namespace == d.namespace
      && r.value.summary.readyReplicas == d.readyReplicas && r.value.summary.replicas == d.replicas
      && IsLatestUpdate(d, r.value.summary.updatedAt)
      && r.value.conditions == d.conditions
  {
    if namespace == "" || namespace == "all" {
      return Err(NamespaceRequired);
    }
    var found := FindDeployment(store, namespace, name);
    if found.None? {
      return Err(DeploymentNotFound);
    }
    var d := found.value;
    var updated := LatestDeploymentUpdate(d);
    return Ok(DeploymentDetail(
      DeploymentSummary(d.name, d.namespace, d.readyReplicas, d.replicas, updated), d.conditions));
  }
}

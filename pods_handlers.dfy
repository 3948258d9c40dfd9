/** The pod endpoints: build the list options from the query, call the service, map errors to statuses. */
module PodsHandlers {
  import opened Wrappers
  import opened Strings
  import opened K8sService
  import opened HandlersCommon

  /** `ListResponse[PodSummary]`: one page and the count before pagination. */
  datatype PodList = PodList(items: seq<PodSummary>, count: nat)

  /** The options `ListPods` passes on: the four text parameters trimmed, the numbers from `parsePagination`. */
  function PodListOptions(q: Query, atoi: string -> Option<int>): (o: ListOptions)
    ensures o.namespace == TrimSpace(QueryParam(q, "namespace")) && o.status == TrimSpace(QueryParam(q, "status"))
    ensures o.labelSelector == TrimSpace(QueryParam(q, "labels")) && o.query == TrimSpace(QueryParam(q, "q"))
    ensures o.limit == PageParam(QueryParam(q, "limit"), atoi) && o.offset == PageParam(QueryParam(q, "offset"), atoi)
  {
    ListOptions(TrimSpace(QueryParam(q, "namespace")), TrimSpace(QueryParam(q, "status")),
                TrimSpace(QueryParam(q, "labels")), TrimSpace(QueryParam(q, "q")),
                PageParam(QueryParam(q, "limit"), atoi), PageParam(QueryParam(q, "offset"), atoi))
  }

  /** The `ListPods` handler: 500 on any service error, else the page with the pre-pagination count. */
  method ListPodsHandler(q: Query, atoi: string -> Option<int>, store: seq<Pod>,
                         parseSelector: string -> Option<Selector>, cancelled: bool)
    returns (reply: Reply<PodList, ServiceError>)
    ensures var o := PodListOptions(q, atoi);
      SelectorFor(o.labelSelector, parseSelector).None? ==> reply == ErrorJson(500, InvalidLabelSelector)
    ensures var o := PodListOptions(q, atoi);
      SelectorFor(o.labelSelector, parseSelector).Some? && cancelled ==> reply == ErrorJson(500, Cancelled)
    ensures var o := PodListOptions(q, atoi);
      SelectorFor(o.labelSelector, parseSelector).Some? && !cancelled ==>
        && reply.Json? && reply.status == 200
        && var all := AllMatching(store, o, SelectorFor(o.labelSelector, parseSelector).value);
        && reply.payload.count == |all|
        && IsPage(reply.payload.items, all, o.offset, o.limit)
  {
    var limit, offset := ParsePagination(q, atoi);
    var options := ListOptions(TrimSpace(QueryParam(q, "namespace")), TrimSpace(QueryParam(q, "status")),
                               TrimSpace(QueryParam(q, "labels")), TrimSpace(QueryParam(q, "q")),
                               limit, offset);
    assert options == PodListOptions(q, atoi);
    var result := K8sService.ListPods(store, options, parseSelector, cancelled);
    if result.Err? {
      return ErrorJson(500, result.error);
    }
    return Json(200, PodList(result.value.items, result.value.total));
  }

  /** The `GetPod` handler: path parameters as given; any service error is a 404. */
  method GetPodHandler(store: seq<Pod>, events: seq<Event>, namespace: string, name: string)
    returns (reply: Reply<PodDetail, ServiceError>)
    ensures FindPod(store, namespace, name).None? <==> reply == ErrorJson(404, PodNotFound)
    ensures FindPod(store, namespace, name).Some? ==>
      && reply.Json? && reply.status == 200
      && reply.payload.summary == ToPodSummary(FindPod(store, namespace, name).value,
                                               RestartTotal(FindPod(store, namespace, name).value))
      && reply.payload.events == PodEvents(events, namespace, name)
  {
    var result := K8sService.GetPod(store, events, namespace, name);
    if result.Err? {
      return ErrorJson(404, result.error);
    }
    return Json(200, result.value);
  }
}

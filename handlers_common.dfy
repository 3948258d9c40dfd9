/**
 * What every HTTP handler shares: the shape of a reply and the pagination
 * parameters of list endpoints.
 */
module HandlersCommon {
  import opened Wrappers

  /**
   * A handler's reply: a JSON body with a status, a JSON `{"error": …}` body,
   * or a status with no body. `E` is whatever error the message is taken from.
   */
  datatype Reply<T, E> = Json(status: int, payload: T) | ErrorJson(status: int, error: E) | Empty(status: int)

  /** `c.Query`: the first value of a query parameter, "" when absent. */
  type Query = map<string, string>

  function QueryParam(q: Query, key: string): string {
    if key in q then q[key] else ""
  }

  /** One pagination parameter: `strconv.Atoi`'s value when the text parses, otherwise 0; negatives stay. */
  function PageParam(v: string, atoi: string -> Option<int>): (r: int)
    ensures v == "" || atoi(v).None? ==> r == 0
    ensures v != "" && atoi(v).Some? ==> r == atoi(v).value
  {
    if v != "" && atoi(v).Some? then atoi(v).value else 0
  }

  /**
   * `parsePagination`: both results start at 0 and are overwritten only by a
   * successful parse of their own parameter.
   */
  method ParsePagination(q: Query, atoi: string -> Option<int>) returns (limit: int, offset: int)
    ensures limit == PageParam(QueryParam(q, "limit"), atoi)
    ensures offset == PageParam(QueryParam(q, "offset"), atoi)
    ensures "limit" !in q && "offset" !in q ==> limit == 0 && offset == 0
  {
    limit := 0;
    offset := 0;
    var v := QueryParam(q, "limit");
    if v != "" {
      var parsed := atoi(v);
      if parsed.Some? {
        limit := parsed.value;
      }
    }
    v := QueryParam(q, "offset");
    if v != "" {
      var parsed := atoi(v);
      if parsed.Some? {
        offset := parsed.value;
      }
    }
  }
}

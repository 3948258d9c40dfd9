/**
 * The web client's request helpers: the API base, URL building, the query
 * string, the request options, and the decision on a response. `fetch`,
 * JSON parsing and percent-encoding are abstract.
 */
module ApiClient {
  import opened Wrappers
  import opened Strings

  // ---------------------------------------------------------------- rejections

  /** What a rejected promise carries: an `ApiError`, another `Error`, or a value that is not an `Error`. */
  datatype Thrown = ApiErr(status: int, message: string) | Failure(message: string) | NonError

  /** A settled promise. */
  datatype Outcome<+T> = Resolved(value: T) | Rejected(reason: Thrown)

  /** `err instanceof Error ? err.message : fallback`. */
  function Message(e: Thrown, fallback: string): (r: string)
    ensures e.NonError? ==> r == fallback
    ensures !e.NonError? ==> r == e.message
  {
    match e
    case ApiErr(_, m) => m
    case Failure(m) => m
    case NonError => fallback
  }

  // ---------------------------------------------------------------- URLs

  /** `API_BASE`: `VITE_API_BASE` when it is a non-empty string (None: not a string), else "/api". */
  function ApiBase(viteApiBase: Option<string>): (r: string)
    ensures r != ""
    ensures viteApiBase.Some? && viteApiBase.value != "" ==> r == viteApiBase.value
    ensures viteApiBase.None? || viteApiBase.value == "" ==> r == "/api"
  {
    if viteApiBase.Some? && |viteApiBase.value| > 0 then viteApiBase.value else "/api"
  }

  /** `buildUrl`: absolute URLs pass through; other paths go under the base with one "/" between. */
  function BuildUrl(base: string, path: string): (r: string)
    ensures HasPrefix(path, "http") ==> r == path
  {
    if HasPrefix(path, "http") then path
    else if HasPrefix(path, "/") then base + path
    else base + "/" + path
  }

  /** A path that is not absolute ends up after the base and a "/", with its own leading "/" not doubled. */
  lemma BuildUrlShape(base: string, path: string)
    requires !HasPrefix(path, "http")
    ensures var r := BuildUrl(base, path);
      && HasPrefix(r, base + "/")
      && r[|base| + 1..] == (if HasPrefix(path, "/") then path[1..] else path)
  {
  }

  /** "/x" and "x" name the same URL. */
  lemma LeadingSlashIrrelevant(base: string, path: string)
    requires !HasPrefix(path, "http") && !HasPrefix(path, "/")
    ensures BuildUrl(base, "/" + path) == BuildUrl(base, path)
  {
    assert ("/" + path)[..1] == "/";
    if |path| >= 4 {
      assert ("/" + path)[..4] != "http" by { assert ("/" + path)[0] == '/'; }
    }
  }

  // ---------------------------------------------------------------- query strings

  /** A value of the parameter record; `Undefined`, `Null` and `Str("")` are dropped. */
  datatype QueryValue = Undefined | Null | Str(s: string) | Num(n: int)

  predicate Kept(v: QueryValue) {
    !(v.Undefined? || v.Null? || v == Str(""))
  }

  /** `String(value)` for a kept value. */
  function Text(v: QueryValue): string
    requires Kept(v)
  {
    match v
    case Str(s) => s
    case Num(n) => IntToDecimal(n)
  }

  type Pairs = seq<(string, string)>

  /** The first value stored under key `k`: `URLSearchParams.get`. */
  function Lookup(ps: Pairs, k: string): (r: Option<string>)
    ensures r.Some? <==> exists i | 0 <= i < |ps| :: ps[i].0 == k
  {
    if |ps| == 0 then None
    else if ps[0].0 == k then Some(ps[0].1)
    else Lookup(ps[1..], k)
  }

  /** The entries whose key is not `k`, in order. */
  function Without(ps: Pairs, k: string): (r: Pairs)
    ensures Lookup(r, k).None?
    ensures |r| <= |ps|
  {
    if |ps| == 0 then []
    else if ps[0].0 == k then Without(ps[1..], k)
    else [ps[0]] + Without(ps[1..], k)
  }

  /** `URLSearchParams.set`: the first entry under `k` takes the value and later ones go; with none, it is appended. */
  function SetParam(ps: Pairs, k: string, v: string): (r: Pairs)
    ensures |r| >= 1
  {
    if |ps| == 0 then [(k, v)]
    else if ps[0].0 == k then [(k, v)] + Without(ps[1..], k)
    else [ps[0]] + SetParam(ps[1..], k, v)
  }

  lemma {:induction false} WithoutLookup(ps: Pairs, k: string, other: string)
    requires other != k
    ensures Lookup(Without(ps, k), other) == Lookup(ps, other)
  {
    if |ps| > 0 {
      WithoutLookup(ps[1..], k, other);
    }
  }

  /** After `set(k, v)`, `get(k)` is `v` and every other key reads as before. */
  lemma {:induction false} SetParamLookup(ps: Pairs, k: string, v: string, other: string)
    ensures Lookup(SetParam(ps, k, v), k) == Some(v)
    ensures other != k ==> Lookup(SetParam(ps, k, v), other) == Lookup(ps, other)
  {
    if |ps| > 0 {
      if ps[0].0 == k {
        if other != k {
          WithoutLookup(ps[1..], k, other);
        }
      } else {
        SetParamLookup(ps[1..], k, v, other);
      }
    }
  }

  /** The search parameters after `forEach` has visited `params` in order. */
  function Entries(params: seq<(string, QueryValue)>): Pairs
  {
    if |params| == 0 then []
    else
      var init := Entries(params[..|params| - 1]);
      var (k, v) := params[|params| - 1];
      if Kept(v) then SetParam(init, k, Text(v)) else init
  }

  /** The text of the last kept value under key `k` in the record. */
  function LastKept(params: seq<(string, QueryValue)>, k: string): Option<string>
  {
    if |params| == 0 then None
    else
      var (key, v) := params[|params| - 1];
      if key == k && Kept(v) then Some(Text(v)) else LastKept(params[..|params| - 1], k)
  }

  lemma {:induction false} LastKeptAbsent(params: seq<(string, QueryValue)>, k: string)
    requires forall i | 0 <= i < |params| :: params[i].0 != k
    ensures LastKept(params, k).None?
  {
    if |params| > 0 {
      LastKeptAbsent(params[..|params| - 1], k);
    }
  }

  lemma LastKeptSkip(params: seq<(string, QueryValue)>, k: string)
    requires |params| > 0 && params[|params| - 1].0 != k
    ensures LastKept(params, k) == LastKept(params[..|params| - 1], k)
  {
  }

  /** Each key of the query reads as the last kept value the record gives it; dropped values leave no trace. */
  lemma {:induction false} EntriesLookup(params: seq<(string, QueryValue)>, k: string)
    ensures Lookup(Entries(params), k) == LastKept(params, k)
  {
    if |params| > 0 {
      var init := params[..|params| - 1];
      EntriesLookup(init, k);
      var (key, v) := params[|params| - 1];
      if Kept(v) {
        SetParamLookup(Entries(init), key, Text(v), k);
      }
    }
  }

  /** Nothing is left exactly when every value is dropped. */
  lemma {:induction false} EntriesEmptyIff(params: seq<(string, QueryValue)>)
    ensures Entries(params) == [] <==> forall i | 0 <= i < |params| :: !Kept(params[i].1)
  {
    if |params| > 0 {
      var init := params[..|params| - 1];
      EntriesEmptyIff(init);
      assert forall i | 0 <= i < |init| :: init[i] == params[i];
    }
  }

  /** `searchParams.toString()`: `key=value` pairs joined with "&", each side through the form encoder. */
  function Serialize(ps: Pairs, encode: string -> string): string {
    Join(seq(|ps|, i requires 0 <= i < |ps| => encode(ps[i].0) + "=" + encode(ps[i].1)), '&')
  }

  lemma SerializeEmptyIff(ps: Pairs, encode: string -> string)
    ensures Serialize(ps, encode) == "" <==> ps == []
  {
    if |ps| > 0 {
      var parts := seq(|ps|, i requires 0 <= i < |ps| => encode(ps[i].0) + "=" + encode(ps[i].1));
      assert parts[0] != "";
      assert Join(parts, '&')[..|parts[0]|] == parts[0];
    }
  }

  /** `toQueryString` as a value: "" when nothing is kept, else "?" and the serialised parameters. */
  function QueryString(params: seq<(string, QueryValue)>, encode: string -> string): string {
    var qs := Serialize(Entries(params), encode);
    if qs == "" then "" else "?" + qs
  }

  /** The query string is empty exactly when every value is dropped, and otherwise starts with "?". */
  lemma QueryStringEmptyIff(params: seq<(string, QueryValue)>, encode: string -> string)
    ensures QueryString(params, encode) == "" <==> forall i | 0 <= i < |params| :: !Kept(params[i].1)
    ensures QueryString(params, encode) != "" ==> QueryString(params, encode)[0] == '?'
  {
    EntriesEmptyIff(params);
    SerializeEmptyIff(Entries(params), encode);
  }

  /** `toQueryString`: `set` each kept value in order, then serialise. */
  method ToQueryString(params: seq<(string, QueryValue)>, encode: string -> string) returns (r: string)
    ensures r == QueryString(params, encode)
  {
    var searchParams: Pairs := [];
    for i := 0 to |params|
      invariant searchParams == Entries(params[..i])
    {
      var (key, value) := params[i];
      assert params[..i + 1][..i] == params[..i];
      if value.Undefined? || value == Str("") || value.Null? {
        continue;
      }
      searchParams := SetParam(searchParams, key, Text(value));
    }
    assert params[..|params|] == params;
    var qs := Serialize(searchParams, encode);
    r := if qs != "" then "?" + qs else "";
  }

  // ---------------------------------------------------------------- fetchPods

  /** The pod list filters of the pods page; `limit` and `offset` may be absent. */
  datatype PodFilter = PodFilter(namespace: string, status: string, query: string, limit: Option<int>, offset: Option<int>)

  function OptionalNum(n: Option<int>): QueryValue {
    if n.Some? then Num(n.value) else Undefined
  }

  /** The parameter record `fetchPods` builds: 'all' namespace and status become undefined. */
  function PodQuery(f: PodFilter): seq<(string, QueryValue)> {
    [("namespace", if f.namespace == "all" then Undefined else Str(f.namespace)),
     ("status", if f.status == "all" then Undefined else Str(f.status)),
     ("q", Str(f.query)),
     ("limit", OptionalNum(f.limit)),
     ("offset", OptionalNum(f.offset))]
  }

  /** The path `fetchPods` requests. */
  function FetchPodsPath(f: PodFilter, encode: string -> string): (r: string)
    ensures HasPrefix(r, "/v1/pods")
    ensures r == "/v1/pods" + QueryString(PodQuery(f), encode)
  {
    "/v1/pods" + QueryString(PodQuery(f), encode)
  }

  /**
   * What the server receives from `fetchPods`: namespace and status only when
   * neither 'all' nor empty, the search text when not empty, and limit and
   * offset whenever they are set, zero included.
   */
  lemma PodQueryParams(f: PodFilter)
    ensures Lookup(Entries(PodQuery(f)), "namespace") ==
      (if f.namespace == "all" || f.namespace == "" then None else Some(f.namespace))
    ensures Lookup(Entries(PodQuery(f)), "status") ==
      (if f.status == "all" || f.status == "" then None else Some(f.status))
    ensures Lookup(Entries(PodQuery(f)), "q") == (if f.query == "" then None else Some(f.query))
    ensures Lookup(Entries(PodQuery(f)), "limit") == (if f.limit.Some? then Some(IntToDecimal(f.limit.value)) else None)
    ensures Lookup(Entries(PodQuery(f)), "offset") == (if f.offset.Some? then Some(IntToDecimal(f.offset.value)) else None)
  {
    var q := PodQuery(f);
    var q4 := q[..4];
    var q3 := q4[..3];
    var q2 := q3[..2];
    var q1 := q2[..1];
    assert q4 == [q[0], q[1], q[2], q[3]];
    assert q3 == [q[0], q[1], q[2]];
    assert q2 == [q[0], q[1]];
    assert q1 == [q[0]] && q1[..0] == [];
    EntriesLookup(q, "offset");
    LastKeptAbsent(q4, "offset");
    EntriesLookup(q, "limit");
    LastKeptSkip(q, "limit");
    LastKeptAbsent(q3, "limit");
    EntriesLookup(q, "q");
    LastKeptSkip(q, "q");
    LastKeptSkip(q4, "q");
    LastKeptAbsent(q2, "q");
    EntriesLookup(q, "status");
    LastKeptSkip(q, "status");
    LastKeptSkip(q4, "status");
    LastKeptSkip(q3, "status");
    LastKeptAbsent(q1, "status");
    EntriesLookup(q, "namespace");
    LastKeptSkip(q, "namespace");
    LastKeptSkip(q4, "namespace");
    LastKeptSkip(q3, "namespace");
    LastKeptSkip(q2, "namespace");
  }

  /**
   * The request carries no query string exactly when the filter asks for every
   * namespace and status, has no search text, and sets neither limit nor offset.
   */
  lemma FetchPodsPathBare(f: PodFilter, encode: string -> string)
    ensures FetchPodsPath(f, encode) == "/v1/pods" <==>
      && (f.namespace == "all" || f.namespace == "") && (f.status == "all" || f.status == "")
      && f.query == "" && f.limit.None? && f.offset.None?
  {
    var q := PodQuery(f);
    QueryStringEmptyIff(q, encode);
    var rest := QueryString(q, encode);
    assert FetchPodsPath(f, encode) == "/v1/pods" + rest;
    assert "/v1/pods" + rest == "/v1/pods" <==> rest == "" by {
      if "/v1/pods" + rest == "/v1/pods" {
        assert |rest| == 0;
      }
    }
    assert (forall i | 0 <= i < |q| :: !Kept(q[i].1)) <==>
      !Kept(q[0].1) && !Kept(q[1].1) && !Kept(q[2].1) && !Kept(q[3].1) && !Kept(q[4].1);
  }

  // ---------------------------------------------------------------- requests

  /** The parts of a `RequestInit` the client touches; `headers` is a plain object. */
  datatype RequestInit = RequestInit(
    credentials: Option<string>, headers: map<string, string>, httpMethod: Option<string>, body: Option<string>)

  const NoInit := RequestInit(None, map[], None, None)

  function DefaultHeaders(): map<string, string> {
    map["Accept" := "application/json", "Content-Type" := "application/json"]
  }

  /** The options `apiRequest` passes to `fetch`: credentials included unless the caller says otherwise, caller headers over the JSON defaults. */
  function RequestOptions(init: RequestInit): (r: RequestInit)
    ensures r.credentials == Some(init.credentials.GetOr("include"))
    ensures r.headers.Keys == DefaultHeaders().Keys + init.headers.Keys
    ensures forall h | h in init.headers :: r.headers[h] == init.headers[h]
    ensures forall h | h in DefaultHeaders() && h !in init.headers :: r.headers[h] == DefaultHeaders()[h]
    ensures r.httpMethod == init.httpMethod && r.body == init.body
  {
    RequestInit(Some(init.credentials.GetOr("include")), DefaultHeaders() + init.headers, init.httpMethod, init.body)
  }

  /** A JSON value, for the truthiness test `apiPost` applies to its body. */
  datatype Json = JNull | JBool(b: bool) | JNum(n: int) | JStr(s: string) | JArray(items: seq<Json>) | JObject(fields: map<string, Json>)

  predicate Truthy(j: Json) {
    !(j == JNull || j == JBool(false) || j == JNum(0) || j == JStr(""))
  }

  /** `apiGet`/`apiDelete`: the caller's init with the method forced. */
  function WithMethod(init: RequestInit, httpMethod: string): (r: RequestInit)
    ensures r.httpMethod == Some(httpMethod)
    ensures r.headers == init.headers && r.credentials == init.credentials && r.body == init.body
  {
    init.(httpMethod := Some(httpMethod))
  }

  /** `apiPost`: method POST; the body is the stringified value, or absent when the value is missing or falsy. */
  function PostInit(init: RequestInit, body: Option<Json>, stringify: Json -> string): (r: RequestInit)
    ensures r.httpMethod == Some("POST") && r.headers == init.headers && r.credentials == init.credentials
    ensures r.body.Some? <==> body.Some? && Truthy(body.value)
    ensures r.body.Some? ==> r.body.value == stringify(body.value)
  {
    init.(httpMethod := Some("POST"), body := if body.Some? && Truthy(body.value) then Some(stringify(body.value)) else None)
  }

  /**
   * What reaches `fetch` from `apiGet`/`apiDelete` and `apiPost`: the helper's method wins over
   * any method in the caller's init, and everything else the caller gave is passed on.
   */
  lemma HelperMethodReachesFetch(init: RequestInit, httpMethod: string, body: Option<Json>, stringify: Json -> string)
    ensures var sent := RequestOptions(WithMethod(init, httpMethod));
      && sent.httpMethod == Some(httpMethod) && sent.body == init.body
      && sent.credentials == Some(init.credentials.GetOr("include"))
      && forall h | h in init.headers :: h in sent.headers && sent.headers[h] == init.headers[h]
    ensures var sent := RequestOptions(PostInit(init, body, stringify));
      && sent.httpMethod == Some("POST")
      && sent.credentials == Some(init.credentials.GetOr("include"))
      && (sent.body.Some? <==> body.Some? && Truthy(body.value))
      && forall h | h in init.headers :: h in sent.headers && sent.headers[h] == init.headers[h]
  {
  }

  // ---------------------------------------------------------------- responses

  /** A response: status, body text and the `Content-Type` header if any. */
  datatype HttpResponse = HttpResponse(status: int, text: string, contentType: Option<string>)

  /** `response.ok`. */
  predicate IsOk(r: HttpResponse) {
    200 <= r.status <= 299
  }

  /** The body `handleResponse` resolves with: the parsed JSON or an empty object. */
  datatype Body<+J> = Parsed(json: J) | EmptyObject

  /**
   * `handleResponse`: a failed status rejects with an `ApiError` carrying the
   * status and the body text (or "Request failed"); a JSON content type is
   * parsed (a parse failure rejects); anything else resolves to `{}`.
   */
  function HandleResponse<J>(resp: HttpResponse, parseJson: string -> Result<J, string>): (r: Outcome<Body<J>>)
    ensures !IsOk(resp) <==> r.Rejected? && r.reason.ApiErr?
    ensures r.Rejected? && r.reason.ApiErr? ==> r.reason.status == resp.status && r.reason.message != ""
    ensures !IsOk(resp) && resp.text != "" ==> r.reason.message == resp.text
    ensures IsOk(resp) && !IsSubstring("application/json", resp.contentType.GetOr("")) ==> r == Resolved(EmptyObject)
    ensures !IsOk(resp) && resp.text == "" ==> r.reason.message == "Request failed"
    ensures IsOk(resp) && IsSubstring("application/json", resp.contentType.GetOr("")) ==>
      (r.Resolved? <==> parseJson(resp.text).Ok?)
    ensures IsOk(resp) && IsSubstring("application/json", resp.contentType.GetOr("")) && parseJson(resp.text).Ok? ==>
      r == Resolved(Parsed(parseJson(resp.text).value))
    ensures IsOk(resp) && IsSubstring("application/json", resp.contentType.GetOr("")) && parseJson(resp.text).Err? ==>
      r == Rejected(Failure(parseJson(resp.text).error))
  {
    if !IsOk(resp) then
      Rejected(ApiErr(resp.status, if resp.text == "" then "Request failed" else resp.text))
    else if IsSubstring("application/json", resp.contentType.GetOr("")) then
      match parseJson(resp.text)
      case Ok(j) => Resolved(Parsed(j))
      case Err(m) => Rejected(Failure(m))
    else Resolved(EmptyObject)
  }
}

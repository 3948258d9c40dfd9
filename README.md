# kubezen core, modelled in Dafny

kubezen is a web dashboard for Kubernetes clusters. It has a Go backend and a React/TypeScript frontend.

The backend has several parts:

- It loads its configuration from environment variables.
- It authenticates users with three kinds of session: OIDC login, an uploaded kubeconfig, or a local user from a first-run setup.
- It guards the API with a CORS middleware and a session middleware.
- It lists and describes pods, deployments and nodes from informer caches, with filtering and pagination.

The frontend has these parts:

- an API client;
- an auth store and a pod store;
- the setup form;
- the top bar;
- a reconnecting WebSocket hook.

This project models those parts as follows:

- Pure logic becomes datatypes and functions, and lemmas state what that logic promises.
- Loops become methods with loop invariants, proved against a specification function.
- State that the source mutates in place becomes classes. This covers the session manager and the two frontend stores, the setup form and the socket hook. Each class method is specified as a step function on a snapshot of its fields (`State()`), and the lemmas are stated about those step functions.
- I/O that the source delegates to other code becomes a function parameter of the member that uses it: clocks, random identifiers, the database, the OIDC provider, the Kubernetes API, `fetch`, JSON and percent-encoding.

Files:

| file | models |
|---|---|
| `strings.dfy` | `Option`/`Result`, and the string helpers of Go's `strings`/`strconv` that the core uses |
| `config.dfy` | `internal/config/config.go` |
| `auth_manager.dfy` | `internal/auth/manager.go` (class `Manager`) |
| `cors.dfy`, `auth_middleware.dfy` | `internal/api/middleware/cors.go`, `internal/api/middleware/auth.go` |
| `users_store.dfy` | `internal/store/users.go` |
| `contexts.dfy` | `internal/api/handlers/contexts.go` |
| `handlers_common.dfy`, `pods_handlers.dfy` | `internal/api/handlers/common.go`, `internal/api/handlers/pods.go` |
| `auth_handlers.dfy`, `setup_handlers.dfy` | `internal/api/handlers/auth.go`, `internal/api/handlers/setup.go` |
| `k8s_service.dfy` | `internal/k8s/service.go` |
| `api_client.dfy` | `web/src/lib/api/client.ts` |
| `websocket.dfy` | `web/src/hooks/useWebSocket.ts` (class `SocketHook`) |
| `auth_store.dfy`, `pod_store.dfy` | `web/src/stores/auth-store.ts`, `web/src/stores/pod-store.ts` (classes `Store`) |
| `setup_page.dfy` | `web/src/pages/SetupPage.tsx` (class `SetupForm`) |
| `topbar.dfy` | `web/src/components/layout/Topbar.tsx` |

### The socket hook's reconnection

`useWebSocket.ts` reconnects as follows:

- `onclose` (lines 43-49) sets the status to closed for any socket, current or replaced. When reconnection is on, it also schedules a new connection after the fixed `retryMs`.
- `connect` (lines 36-41) closes whatever socket is current at that moment.
- Every retry waits the same `retryMs`. There is no attempt counter and no retry cap.

`WebSocketHook.CloseAlwaysCounts` states that any close counts. `WebSocketHook.StaleCloseDisruptsCurrent` exhibits a concrete trace in which a replaced socket's close first marks the hook closed while a newer socket is connecting, and then, through the timer it scheduled, closes that newer socket.

## Model

| member | source | states |
|---|---|---|
| Config.GetEnv | internal/config/config.go:81-86 | the trimmed variable when it is not blank, else the fallback |
| Config.GetEnvTrimmed | internal/config/config.go:81-86 | a string setting never carries surrounding white space when its fallback does not |
| Config.GetParsed | internal/config/config.go:88-122 | a numeric, duration or boolean setting is the parsed raw value, or the fallback when the variable is unset or does not parse |
| Config.PaddingReachesParser | internal/config/config.go:81-122 | padding a variable does not change a string setting, which is trimmed, but a parsed setting hands the padded text to its parser, so a parser that accepts the trimmed text falls back to the default on the padded one |
| Config.SplitCSV | internal/config/config.go:124-138 | the loop yields exactly the trimmed non-blank comma-separated fields, in order, or `["*"]` when there are none |
| Config.NonBlankMembership | internal/config/config.go:124-138 | a value is in the list iff it is a non-empty trimmed field of the input |
| Config.NonBlankEmptyIffAllBlank | internal/config/config.go:124-138 | no field survives iff every field is blank |
| Config.CsvWildcardWhenBlank | internal/config/config.go:134-136 | an all-blank list falls back to the wildcard `["*"]` |
| Config.CsvValuesClean | internal/config/config.go:124-138 | every listed value is trimmed and holds no comma |
| Config.Load | internal/config/config.go:49-79 | the environment, address, session cookie name and session secret are never empty, and the allowed origins and OIDC scopes each hold at least one entry |
| Config.LoadDefaults | internal/config/config.go:49-79 | with an empty environment, the settings take their defaults (development, `:8080`, 15 s timeouts, origins `*`, burst 40, dev bypass on, cookie `kz_session`, 24 h TTL, secure cookie) |
| AuthManager.FindSession | internal/auth/manager.go:108-119 | a session is found iff it is stored under that id and is an OIDC session or not yet expired |
| AuthManager.ConsumeState | internal/auth/manager.go:167-176 | a state validates iff it was issued and its deadline has not passed; it is removed either way |
| AuthManager.TakeVerifier | internal/auth/manager.go:186-192 | the stored verifier, or "" when absent, is returned and removed; the other entries stay |
| AuthManager.CookieName | internal/auth/manager.go:194-199 | the configured session cookie name, or `kz_session` when none is configured |
| AuthManager.DisplayName | internal/auth/manager.go:213-224 | the first non-empty of email, name and subject, else "user"; never empty |
| AuthManager.WholeSeconds | internal/auth/manager.go:127-143 | Go's truncating conversion of a duration to whole seconds: the largest count not above a non-negative duration, rounded toward zero for a negative one |
| AuthManager.SessionCookie | internal/auth/manager.go:127-143 | a cookie under the configured name carrying the session id, with max-age the TTL in whole seconds, path `/`, the configured domain and secure flag, HTTP-only |
| AuthManager.ClearedCookie | internal/auth/manager.go:145-147 | an empty cookie under the configured name with a negative max-age, path `/`, the configured domain and secure flag, HTTP-only |
| AuthManager.ClearedCookieReplacesSessionCookie | internal/auth/manager.go:127-147 | the clearing cookie has the session cookie's name, path and domain, so it deletes it |
| AuthManager.SessionCookieLifetime | internal/auth/manager.go:127-143 | with a TTL of a second or more, the cookie lives at least one second and no longer than the TTL |
| AuthManager.InsertedSessionFound | internal/auth/manager.go:55-106 | a session that was just created is found by its id |
| AuthManager.InsertKeepsOthers | internal/auth/manager.go:55-106 | creating a session does not change the lookup of any other id |
| AuthManager.DeleteSessionEffect | internal/auth/manager.go:121-125 | after deletion the id is not found, and every other lookup is unchanged |
| AuthManager.ExpiryIsFinal | internal/auth/manager.go:108-119 | a non-OIDC session that has expired stays expired at every later time |
| AuthManager.StateSingleUse | internal/auth/manager.go:159-176 | a fresh state validates once, within its ten minutes, and never again |
| AuthManager.ExpiredStateRejected | internal/auth/manager.go:167-176 | a state presented at or after its deadline is rejected and dropped |
| AuthManager.VerifierTakenOnce | internal/auth/manager.go:179-192 | a stored verifier is read back once; a second read yields "" |
| AuthManager.Manager.constructor | internal/auth/manager.go:46-53 | a manager starts with no sessions, states or verifiers |
| AuthManager.Manager.SessionByID | internal/auth/manager.go:108-119 | a session is returned iff one is stored under the id and it is an OIDC session or has not expired, and it is the stored one |
| AuthManager.Manager.NewSessionFromOIDC | internal/auth/manager.go:55-72 | stores an OIDC session holding the subject, the tokens and the token expiry; the other stores are unchanged |
| AuthManager.Manager.NewSessionFromKubeconfig | internal/auth/manager.go:74-90 | stores a kubeconfig session that expires after the TTL and holds the raw config and context |
| AuthManager.Manager.NewSessionFromLocal | internal/auth/manager.go:92-106 | stores a local session that expires after the TTL |
| AuthManager.Manager.SessionFromRequest | internal/auth/manager.go:149-155 | no cookie means no session; otherwise the lookup of the cookie's value |
| AuthManager.Manager.DeleteSession | internal/auth/manager.go:121-125 | removes exactly that id |
| AuthManager.Manager.NewState | internal/auth/manager.go:159-165 | records the state with a deadline ten minutes ahead |
| AuthManager.Manager.ValidateState | internal/auth/manager.go:167-176 | the verdict and the new store are those of `ConsumeState` |
| AuthManager.Manager.StoreCodeVerifier | internal/auth/manager.go:179-183 | records the verifier under the state |
| AuthManager.Manager.GetCodeVerifier | internal/auth/manager.go:186-192 | the result and the new store are those of `TakeVerifier` |
| Cors.NormalizeOrigins | internal/api/middleware/cors.go:39-52 | the loop yields the set of lower-cased trimmed non-blank origins, or `{"*"}` when there are none |
| Cors.EntriesMembership | internal/api/middleware/cors.go:39-52 | an origin is allowed iff it is the normalised form of some configured entry |
| Cors.WildcardAllowed | internal/api/middleware/cors.go:39-52 | the wildcard is in force iff it is configured or nothing is configured |
| Cors.Decide | internal/api/middleware/cors.go:12-37 | no Origin header passes untouched; an accepted origin gets exactly the five allow headers (origin echoed, `Vary: Origin`, methods, headers, credentials), an unaccepted one none; every preflight with an Origin is answered 204 |
| Cors.UnconfiguredAllowsAll | internal/api/middleware/cors.go:12-52 | with no origins configured, every origin receives the CORS headers |
| Cors.ConfiguredOriginAccepted | internal/api/middleware/cors.go:12-52 | a configured origin is accepted whatever its case |
| Cors.UnlistedPreflightRefused | internal/api/middleware/cors.go:12-52 | a preflight from an unlisted origin is answered 204 without CORS headers |
| AuthMiddleware.Gate | internal/api/middleware/auth.go:13-31 | dev bypass passes everything; otherwise a live session passes with that session attached, and a request without one is refused 401 |
| AuthMiddleware.GateAdmitsIff | internal/api/middleware/auth.go:13-31 | a request is admitted iff dev bypass is on or its session cookie names a live session |
| AuthMiddleware.ExpiredSessionRejected | internal/api/middleware/auth.go:13-31 | an expired kubeconfig or local session is refused 401 |
| AuthMiddleware.ExpiredOidcSessionPasses | internal/api/middleware/auth.go:13-31 | an OIDC session passes whatever its expiry |
| UsersStore.ContainsAt | internal/store/users.go:142-149 | true iff the needle occurs at or after the start index |
| UsersStore.Contains | internal/store/users.go:138-140 | true iff the needle is a substring |
| UsersStore.ContainsEdges | internal/store/users.go:138-149 | the empty needle is always found; a longer needle never is |
| UsersStore.IsUniqueViolation | internal/store/users.go:134-136 | true iff there is an error whose text mentions a UNIQUE constraint |
| UsersStore.CreateUser | internal/store/users.go:27-51 | a hashing failure, a unique violation (user exists), any other insert failure and an id failure are each reported; otherwise the row read back by its new id |
| UsersStore.DeleteUser | internal/store/users.go:105-118 | database failures are reported; zero affected rows is user-not-found; otherwise success |
| Contexts.ResolvedPath | internal/api/handlers/contexts.go:30-46 | the configured path with `~` expanded, else `$HOME/.kube/config`, else `$KUBECONFIG`; empty only when all three are empty |
| Contexts.ResolvePath | internal/api/handlers/contexts.go:30-46 | computes `ResolvedPath` |
| Contexts.ActiveContext | internal/api/handlers/contexts.go:60-63 | the configured context, else the kubeconfig's current context |
| Contexts.Infos | internal/api/handlers/contexts.go:65-74 | one entry per context, in order |
| Contexts.AtMostOneCurrent | internal/api/handlers/contexts.go:65-74 | with distinct names, at most one entry is marked current |
| Contexts.SomeCurrentIff | internal/api/handlers/contexts.go:65-74 | some entry is current iff the active context is listed |
| Contexts.FirstCurrent | internal/api/handlers/contexts.go:77-82 | the index of the first current entry, or the length when none is current |
| Contexts.Swap | internal/api/handlers/contexts.go:77-82 | exchanges two entries and keeps the multiset |
| Contexts.CurrentFirst | internal/api/handlers/contexts.go:77-82 | a permutation that moves the first current entry to the front by one swap and leaves the list alone when none is current |
| Contexts.PutCurrentFirst | internal/api/handlers/contexts.go:77-82 | the in-place array scan and swap computes `CurrentFirst` |
| Contexts.ResponseContexts | internal/api/handlers/contexts.go:65-87 | the response holds every context once, with the active one first when it is listed |
| Contexts.ListContexts | internal/api/handlers/contexts.go:28-89 | 404 when no path resolves, 500 when loading fails, otherwise the active context and the reordered list |
| HandlersCommon.PageParam | internal/api/handlers/common.go:26-40 | the parsed integer, or 0 when absent or unparsable |
| HandlersCommon.ParsePagination | internal/api/handlers/common.go:26-40 | limit and offset are `PageParam` of their query values; both are 0 when absent |
| PodsHandlers.PodListOptions | internal/api/handlers/pods.go:12-35 | namespace, status, labels and q are trimmed query values; limit and offset come from pagination |
| PodsHandlers.ListPodsHandler | internal/api/handlers/pods.go:12-35 | 200 with the service's page, or 500 with the service's error |
| PodsHandlers.GetPodHandler | internal/api/handlers/pods.go:37-48 | 404 iff the pod is absent, else 200 with its detail |
| AuthHandlers.SourceName | internal/api/handlers/auth.go:130-141 | a non-empty name for each session source |
| AuthHandlers.SourceNameInjective | internal/api/handlers/auth.go:130-141 | different sources never share a name |
| AuthHandlers.ToSessionResponse | internal/api/handlers/auth.go:130-141 | subject, source and context copied; refresh flag iff a refresh token is held; expiry omitted iff it is zero |
| AuthHandlers.OIDCStart | internal/api/handlers/auth.go:28-44 | 503 without OIDC; otherwise a state is recorded, and either the PKCE verifier is stored under it and the reply carries the provider's URL and the state, or the URL error is reported as 500 |
| AuthHandlers.OIDCCallback | internal/api/handlers/auth.go:46-73 | 503 without OIDC; an invalid state is 400 and is consumed; a missing code is 400; exchange failures are reported; success stores a session and sets its cookie |
| AuthHandlers.LoginContext | internal/api/handlers/auth.go:75-106 | the trimmed requested context, else the kubeconfig's current context |
| AuthHandlers.LoginSubject | internal/api/handlers/auth.go:75-106 | the requested user, else the context name |
| AuthHandlers.KubeconfigLogin | internal/api/handlers/auth.go:75-106 | a bad body or kubeconfig is 400 and stores nothing; success stores a kubeconfig session and sets its cookie |
| AuthHandlers.SessionInfo | internal/api/handlers/auth.go:108-117 | 401 iff the request has no live session, else its description |
| AuthHandlers.Logout | internal/api/handlers/auth.go:119-128 | always 204 and a cleared cookie; the caller's session is deleted and no longer found |
| SetupHandlers.AuthStatus | internal/api/handlers/setup.go:28-46 | setup is needed iff there are no users; methods are `local`, then `oidc` iff OIDC is enabled; a count failure is 500 |
| SetupHandlers.LocalSessionResponse | internal/api/handlers/setup.go:49-129 | a local session is described without a refresh token or expiry |
| SetupHandlers.InitialSetup | internal/api/handlers/setup.go:49-90 | a count failure is 500; existing users make it 403 with the handlers' bad-request error; an invalid body is 400; otherwise the admin is created and signed in |
| SetupHandlers.LocalLogin | internal/api/handlers/setup.go:93-129 | an invalid body is 400; unknown users and wrong passwords get the same 401; other lookup failures are 500; otherwise a local session is created and its cookie set |
| K8sService.Wrap32 | internal/k8s/service.go:288-294 | the `int32` value congruent to the input modulo 2^32 |
| K8sService.WrapAdd | internal/k8s/service.go:288-294 | wrapping after each addition equals wrapping the exact sum once |
| K8sService.Wrap32Identity | internal/k8s/service.go:288-294 | values inside the `int32` range are unchanged |
| K8sService.TotalRestarts | internal/k8s/service.go:288-294 | the loop yields the wrapped sum of the container restart counts |
| K8sService.RestartTotalExact | internal/k8s/service.go:288-294 | when the sum fits in `int32`, the total is the exact sum |
| K8sService.EffectiveLimit | internal/k8s/service.go:435-438 | a limit outside 1..1000 falls back to 200; a valid limit is kept |
| K8sService.Paginate | internal/k8s/service.go:435-450 | the window starts at the offset clamped to 0..total and holds min(limit, the rest) items |
| K8sService.Filtered | internal/k8s/service.go:79-93 | never longer than the input |
| K8sService.FilteredSound | internal/k8s/service.go:79-93 | every listed summary is that of a pod passing the status and query filters |
| K8sService.FilteredComplete | internal/k8s/service.go:79-93 | every pod passing the filters is listed |
| K8sService.MatchesPodQuery | internal/k8s/service.go:236-252 | the empty query matches every pod |
| K8sService.UpperCaseQueryNeverMatches | internal/k8s/service.go:236-252 | the pod's name, namespace, node and labels are lower-cased before the search, so a query holding an upper-case letter matches no pod |
| K8sService.ToPodSummary | internal/k8s/service.go:254-265 | the summary carries the pod's uid, name, namespace, phase, node, creation time and labels unchanged, with the given restart total, which the listing computes as the `int32`-wrapped sum of the container restart counts |
| K8sService.FilterPods | internal/k8s/service.go:79-93 | the loop computes `Filtered` |
| K8sService.ListPods | internal/k8s/service.go:51-94 | a bad label selector and cancellation are the only errors; the page is `Paginate` over the filtered pods of the namespace, and the count is the filtered total |
| K8sService.NodeReadyStatus | internal/k8s/service.go:296-306 | Ready or NotReady by the first Ready condition, and Unknown iff there is none |
| K8sService.LatestUpdateUnique | internal/k8s/service.go:308-319 | the latest update time is well defined |
| K8sService.LatestDeploymentUpdate | internal/k8s/service.go:308-319 | the latest positive condition time, else the creation time |
| K8sService.ContainerState | internal/k8s/service.go:353-372 | Running over Waiting over Terminated over Unknown, with the reason and message of the chosen state |
| K8sService.HumanizeJustNow | internal/k8s/service.go:321-334 | "just now" iff under a minute |
| K8sService.HumanizeDuration | internal/k8s/service.go:321-334 | a duration of a minute or more reads as a count followed by one of the unit suffixes `m`, `h`, `d` or `mo` |
| K8sService.TruncatedCount | internal/k8s/service.go:321-334 | a duration of at least one unit and under `bound` units counts between 1 and `bound - 1` whole units, truncated |
| K8sService.HumanizeUnit | internal/k8s/service.go:321-334 | a reading in one unit names the whole number of those units the duration holds |
| K8sService.HumanizeDurationRanges | internal/k8s/service.go:321-334 | minutes, hours, days, then 30-day months, each the truncated count of its unit |
| K8sService.FindPod | internal/k8s/service.go:157-161 | a stored pod with that namespace and name, or none iff there is no such pod |
| K8sService.PodEvents | internal/k8s/service.go:162-169 | never more events than given |
| K8sService.MatchingIndices | internal/k8s/service.go:162-169 | the positions of the events about that pod in that namespace, all of them, in increasing order |
| K8sService.PodEventsExact | internal/k8s/service.go:162-169 | the k-th summary is that of the k-th event about the pod, so the list has one summary per such event, in order |
| K8sService.PodEventsComplete | internal/k8s/service.go:162-169 | every event about the pod is summarised, and every summary comes from such an event |
| K8sService.GetPod | internal/k8s/service.go:157-179 | not found iff the pod is absent; otherwise its summary, containers and events |
| K8sService.FindDeployment | internal/k8s/service.go:194-206 | a stored deployment with that namespace and name, or none iff there is no such deployment |
| K8sService.GetDeployment | internal/k8s/service.go:194-206 | namespace required iff it is "" or "all"; not found iff absent; otherwise its summary with the latest update time |
| ApiClient.Message | web/src/stores/auth-store.ts:45 | a thrown `Error`'s message, or the caller's fallback for a non-error; the stores' catch blocks apply the same rule at auth-store.ts lines 57, 69, 84, 95 and 106 and pod-store.ts line 43 |
| ApiClient.ApiBase | web/src/lib/api/client.ts:14-15 | the configured base, or `/api` when unset or empty |
| ApiClient.BuildUrl | web/src/lib/api/client.ts:39-43 | a path starting with `http` is used unchanged |
| ApiClient.BuildUrlShape | web/src/lib/api/client.ts:39-43 | other paths become the base, one slash, and the path |
| ApiClient.LeadingSlashIrrelevant | web/src/lib/api/client.ts:39-43 | a leading slash on the path does not change the URL |
| ApiClient.SetParamLookup | web/src/lib/api/client.ts:74-82 | setting a parameter makes it read back and leaves the others alone |
| ApiClient.EntriesLookup | web/src/lib/api/client.ts:74-82 | each key reads back as its last kept value |
| ApiClient.EntriesEmptyIff | web/src/lib/api/client.ts:74-82 | no parameter is kept iff every value is undefined, null or empty |
| ApiClient.SerializeEmptyIff | web/src/lib/api/client.ts:74-82 | the serialisation is empty iff there are no parameters |
| ApiClient.QueryStringEmptyIff | web/src/lib/api/client.ts:74-82 | the query string is empty iff nothing is kept, and otherwise starts with `?` |
| ApiClient.ToQueryString | web/src/lib/api/client.ts:74-82 | the loop computes `QueryString` |
| ApiClient.FetchPodsPath | web/src/lib/api/client.ts:85-94 | the request goes to `/v1/pods` followed by the query string of the filter's parameters |
| ApiClient.FetchPodsPathBare | web/src/lib/api/client.ts:85-94 | the path is bare `/v1/pods` iff namespace and status are "all" or empty, the query is empty and neither limit nor offset is given |
| ApiClient.PodQueryParams | web/src/lib/api/client.ts:85-94 | namespace and status are sent unless "all" or empty; q is sent unless empty; limit and offset are sent iff given |
| ApiClient.RequestOptions | web/src/lib/api/client.ts:45-57 | credentials default to include; the JSON headers are merged, with caller headers winning |
| ApiClient.WithMethod | web/src/lib/api/client.ts:58-63 | only the method is replaced; headers, credentials and body are the caller's |
| ApiClient.PostInit | web/src/lib/api/client.ts:60-61 | a POST whose body is the stringified payload iff the payload is truthy; headers and credentials are the caller's |
| ApiClient.HelperMethodReachesFetch | web/src/lib/api/client.ts:44-63 | what reaches `fetch` from the helpers carries the helper's method over any the caller gave, credentials defaulting to include, every caller header, and the caller's body for GET and DELETE |
| ApiClient.HandleResponse | web/src/lib/api/client.ts:27-37 | a non-2xx status rejects with an API error carrying the status and the body text, or "Request failed" when the body is empty; a JSON reply resolves to the parsed value, or rejects with the parser's error; any other reply yields `{}` |
| WebSocketHook.WithDefaults | web/src/hooks/useWebSocket.ts:5-19 | reconnection defaults to on and the retry delay to 2000 ms; given options, the parser and whether an `onMessage` callback exists are kept |
| WebSocketHook.Initial | web/src/hooks/useWebSocket.ts:25-26 | idle, no message, no socket, no timer |
| WebSocketHook.CleanupStep | web/src/hooks/useWebSocket.ts:28-34 | the retry timer is cleared and a connecting or open socket is closed and forgotten |
| WebSocketHook.ConnectStep | web/src/hooks/useWebSocket.ts:36-41 | a new connecting socket becomes current and the status becomes connecting |
| WebSocketHook.SendOnlyWhenOpen | web/src/hooks/useWebSocket.ts:58-62 | a message is sent iff the current socket is open, on that socket, and nothing else changes |
| WebSocketHook.ConnectCancelsRetry | web/src/hooks/useWebSocket.ts:28-41 | connecting cancels the pending retry, closes the previous socket and adds no timer |
| WebSocketHook.CloseAlwaysCounts | web/src/hooks/useWebSocket.ts:43-49 | any close, stale or not, sets the status to closed and schedules one retry iff reconnection is on |
| WebSocketHook.StaleCloseDisruptsCurrent | web/src/hooks/useWebSocket.ts:28-49 | a replaced socket's close marks the hook closed and its retry later closes the newer socket |
| WebSocketHook.SocketHook.constructor | web/src/hooks/useWebSocket.ts:25-26 | the hook starts in `Initial` |
| WebSocketHook.SocketHook.Cleanup | web/src/hooks/useWebSocket.ts:28-34 | performs `CleanupStep` |
| WebSocketHook.SocketHook.Connect | web/src/hooks/useWebSocket.ts:36-41 | performs `ConnectStep` |
| WebSocketHook.SocketHook.Mount | web/src/hooks/useWebSocket.ts:68-69 | mounting connects |
| WebSocketHook.SocketHook.Unmount | web/src/hooks/useWebSocket.ts:70-71 | unmounting cleans up |
| WebSocketHook.SocketHook.OnOpen | web/src/hooks/useWebSocket.ts:42 | performs `OpenStep` |
| WebSocketHook.SocketHook.OnClose | web/src/hooks/useWebSocket.ts:43-49 | performs `CloseStep` |
| WebSocketHook.SocketHook.OnError | web/src/hooks/useWebSocket.ts:50 | performs `ErrorStep` |
| WebSocketHook.MessageDelivery | web/src/hooks/useWebSocket.ts:51-55 | a message makes the parsed or raw payload the last message, hands it to `onMessage` iff one is given, and changes nothing else |
| WebSocketHook.SocketHook.OnMessage | web/src/hooks/useWebSocket.ts:51-55 | performs `MessageStep`: the parsed or raw payload becomes the last message and is delivered iff there is an `onMessage` |
| WebSocketHook.SocketHook.FireTimer | web/src/hooks/useWebSocket.ts:45-48 | a pending retry fires and reconnects |
| WebSocketHook.SocketHook.Send | web/src/hooks/useWebSocket.ts:58-62 | performs `SendStep` |
| AuthStore.Initial | web/src/stores/auth-store.ts:32-36 | no session, no status, not loading, no error |
| AuthStore.Begin | web/src/stores/auth-store.ts:38-109 | every action starts loading with the error cleared |
| AuthStore.SignInOutcomes | web/src/stores/auth-store.ts:50-73 | sign-in success stores the session, clears the error and fetches the contexts; failure keeps the previous session, records the message and rethrows |
| AuthStore.LoadSessionFailures | web/src/stores/auth-store.ts:74-88 | a failed session load signs out, and reports an error iff it was not a 401 |
| AuthStore.ActionsSettle | web/src/stores/auth-store.ts:38-117 | every action ends with loading off, except a successful OIDC start, which keeps loading and redirects |
| AuthStore.LogoutAlwaysSignsOut | web/src/stores/auth-store.ts:110-117 | logout clears the session even when the API call fails, and passes the failure on |
| AuthStore.CompleteOidcCallbackFailure | web/src/stores/auth-store.ts:99-109 | a failed callback exchange skips the session fetch and reports its message |
| AuthStore.FailuresReported | web/src/stores/auth-store.ts:38-109 | every failing action except session load records a non-empty error, for a thrown value that is not an `Error` or an `Error` with a non-empty message |
| AuthStore.Store.constructor | web/src/stores/auth-store.ts:32-36 | the store starts in `Initial` |
| AuthStore.Store.ClearError | web/src/stores/auth-store.ts:37 | only the error is cleared |
| AuthStore.Store.CheckSetup | web/src/stores/auth-store.ts:38-49 | performs `CheckSetupStep` and returns the fetched status |
| AuthStore.Store.SetupAdmin | web/src/stores/auth-store.ts:50-61 | performs `SignInStep` on the setup call, with its fallback message |
| AuthStore.Store.LocalLogin | web/src/stores/auth-store.ts:62-73 | performs `SignInStep` on the login call, with its fallback message |
| AuthStore.Store.LoadSession | web/src/stores/auth-store.ts:74-88 | performs `LoadSessionStep` |
| AuthStore.Store.StartOidc | web/src/stores/auth-store.ts:89-98 | performs `StartOidcStep` |
| AuthStore.Store.CompleteOidc | web/src/stores/auth-store.ts:99-109 | performs `CompleteOidcStep` |
| AuthStore.Store.Logout | web/src/stores/auth-store.ts:110-117 | performs `LogoutStep` |
| PodStore.DefaultFilters | web/src/stores/pod-store.ts:17-23 | every namespace and status, no query, the first 200 pods |
| PodStore.MergeFilters | web/src/stores/pod-store.ts:47-51 | each given field replaces the old one and the others stay |
| PodStore.MergeLaws | web/src/stores/pod-store.ts:47-51 | an empty update changes nothing, repeating an update changes nothing more, and two updates compose into one |
| PodStore.Names | web/src/stores/pod-store.ts:31-46 | the namespace names, in order |
| PodStore.Initial | web/src/stores/pod-store.ts:25-30 | empty lists, default filters, idle |
| PodStore.LoadPodsOutcomes | web/src/stores/pod-store.ts:31-46 | a load keeps the filters and settles; success replaces the lists and clears the error; failure keeps the lists and records the message |
| PodStore.Store.constructor | web/src/stores/pod-store.ts:25-30 | the store starts in `Initial` |
| PodStore.Store.LoadPods | web/src/stores/pod-store.ts:31-46 | performs `LoadPodsStep` with the result of fetching the current filters |
| PodStore.Store.SetFilters | web/src/stores/pod-store.ts:47-51 | merges the update, then loads with the merged filters |
| SetupPage.Validate | web/src/pages/SetupPage.tsx:22-38 | the form is valid iff the username has 3 or more characters, the password has 6 or more and they are confirmed; otherwise the first failing check's message |
| SetupPage.ValidFormPassesServerCheck | web/src/pages/SetupPage.tsx:22-38 | a form the page accepts, with a username of at most 50 characters, passes the server's binding rules; lengths count characters, so this holds for usernames without characters outside the Basic Multilingual Plane |
| SetupPage.LongUsernameReachesServer | internal/api/handlers/setup.go:17-20 | a username over 50 characters passes the page's checks but fails the server's `max=50` binding rule |
| SetupPage.DisplayedError | web/src/pages/SetupPage.tsx:61-64 | the store's error if set, else the validation error, shown only when non-empty |
| SetupPage.StoreErrorTakesPrecedence | web/src/pages/SetupPage.tsx:61-64 | a validation message is shown exactly when the store holds no error |
| SetupPage.SetupForm.constructor | web/src/pages/SetupPage.tsx:17-20 | empty fields, no message, no navigation |
| SetupPage.SetupForm.HandleSubmit | web/src/pages/SetupPage.tsx:22-47 | an invalid form sets its message and leaves the store alone; a valid one runs `setupAdmin` and navigates to `/pods` iff it succeeded |
| Topbar.GetInitials | web/src/components/layout/Topbar.tsx:18-25 | the upper-cased first letters of the first two pieces between `@`, `.` and white space |
| Topbar.InitialsEmptyIff | web/src/components/layout/Topbar.tsx:18-25 | no initials iff the name is nothing but separators |
| Topbar.LeadingSeparatorIgnored | web/src/components/layout/Topbar.tsx:18-25 | leading separators do not change the initials |
| Topbar.FirstInitial | web/src/components/layout/Topbar.tsx:18-25 | a name starting with a letter begins its initials with that letter, upper-cased |
| Topbar.ActiveContext | web/src/components/layout/Topbar.tsx:34 | the first current context, else the first context; none iff the list is empty |
| Topbar.ActiveIsEarliestCurrent | web/src/components/layout/Topbar.tsx:34 | among several current contexts, the earliest is active |
| Topbar.Label | web/src/components/layout/Topbar.tsx:40-73 | a context menu with a session and contexts, a connected badge with a session only, and "not connected" without a session |
| Topbar.MenuNamesAContext | web/src/components/layout/Topbar.tsx:40-73 | with no configured context, the menu names a listed context, a current one whenever one is marked |

## Left out

- Clocks, random identifiers and PKCE challenges are parameters: `now`, fresh ids and verifiers are passed in.
- The mutex in the session manager is left out. Concurrency is not modelled; each call runs alone.
- OAuth2 exchange, ID-token verification, bcrypt hashing and SQL are abstract oracle results. The OIDC client lives in `internal/auth/oidc.go`, which is not part of this model, and the database is likewise not part of this model.
- Error texts from those oracles are abstract values. Only the handlers' own fixed messages and status codes are modelled.
- The Kubernetes informers and listers are a sequence of cached objects. A lister error in `ListPods` is not modelled; only a bad selector and cancellation are.
- `getFloat32` (the QPS setting) is left out because it is floating point.
- The file-system reading of the kubeconfig and `filepath.Join` path cleaning are not modelled. The join is plain concatenation with `/`.
- Gin's request binding is modelled as an optional body plus a validity predicate. Its exact validation messages are not modelled, including the bind-error text of `KubeconfigLogin`.
- `ListContexts` returns an empty list where Go would serialise a nil slice as JSON `null`.
- `K8sService.HumanizeDuration` divides the nanosecond count of the duration by the unit, in integers. The Go code (service.go:326-332) converts to floating-point minutes or hours and truncates with `int(...)`; only that float rounding is not modelled.
- Case mapping covers ASCII letters only, and trimming covers the six ASCII white-space characters only. Go's `unicode.IsSpace` also trims U+0085, U+00A0 and other Unicode spaces; those, and Unicode case folding, are not modelled.
- JavaScript string lengths count UTF-16 units; the model counts characters.
- `SetupPage.ValidFormPassesServerCheck`: the page measures the username in UTF-16 units and gin's `min=3` in runes, so a username of two characters outside the Basic Multilingual Plane (two emoji) passes the page and is refused by the server with 400; the model counts characters on both sides and does not show this.
- `AuthManager.Manager.constructor`: the context given to OIDC sessions is a constructor parameter. `NewSessionFromOIDC` reads `m.cfg.DefaultContext` (manager.go:65), a field the configuration struct (config.go:33-46) does not declare, so its value has no modelled source.
- Percent-encoding in `URLSearchParams.toString` is the abstract `encode` parameter, and JSON parsing and `JSON.stringify` are abstract parameters too.
- Request headers are modelled only as a plain object with exact-case keys. `Headers` instances are not modelled.
- `ApiClient.PostInit`: a payload counts as truthy unless it is null, `false`, `0` or the empty string. JSON has no `NaN`, so that falsy value is not modelled.
- The two requests `loadPods` awaits with `Promise.all` are one abstract outcome. Which one rejects first is not modelled.
- Async interleaving of store actions is not modelled. Each action runs to completion on the outcome of its API call, and render batching by React is left out.
- The socket hook's options are fixed for the hook's lifetime. A re-created `connect` callback after options change is not modelled, and neither is the unreachable initial throwing placeholder of `connectRef`.
- A socket message's payload is a string, and `parse` is an optional function on the message data rather than on the whole event.
- A `parse` that throws inside `onmessage` is not modelled; the parser is total.
- `AuthManager.SessionCookie`: the SameSite=Lax attribute is not modelled. `WriteSessionCookie` (manager.go:133-142) calls `SetSameSite` after `SetCookie`, and gin applies that setting only to cookies written later, so the session cookie is written without it.
- `AuthManager.WholeSeconds`: `int(ttl.Seconds())` goes through a float; for very large TTLs the float rounding is not modelled. The truncation toward zero for a negative TTL is modelled.
- `ApiClient.PodQueryParams`: limit and offset are integers. `ApiClient.Text` renders a number as an integer in decimal; `String` of a fractional number such as 1.5, of `NaN` or of `Infinity` is not modelled.
- `SetupPage.Validate`: the page puts no upper bound on the username; a username over 50 characters is refused by the server with 400, as `SetupPage.LongUsernameReachesServer` states.
- The remaining pages, the router and server wiring, `VirtualTable`, `date.ts`, the cluster store and i18n are outside the modelled core. The cluster store's `contexts` and `currentContext` are inputs to `Topbar.Label`.

/**
 * The login endpoints: the OIDC authorization-code flow, kubeconfig login,
 * the session query and logout. The OIDC provider and the kubeconfig parser
 * are abstract functions.
 */
module AuthHandlers {
  import opened Wrappers
  import opened Strings
  import opened Config
  import opened AuthManager
  import opened HandlersCommon
  import Contexts

  /** The provider side of OIDC: the authorization URL with a new PKCE verifier, and the code exchange. */
  datatype OIDCClient = OIDCClient(
    authCodeURL: string -> Result<(string, string), string>,
    exchange: (string, string) -> Result<OIDCTokenPayload, string>)

  /** Why an auth endpoint failed; `Upstream` carries the message of a library error. */
  datatype AuthError = BadRequest | ServiceUnavailable | InvalidState | Upstream(message: string)

  datatype SessionResponse = SessionResponse(
    subject: string, source: string, context: string, hasRefresh: bool, expiresAt: Option<Time>)

  datatype StartResponse = StartResponse(url: string, state: string)

  datatype KubeconfigRequest = KubeconfigRequest(kubeconfig: string, context: string, user: string)

  /** The JSON names of the session sources. */
  function SourceName(s: SessionSource): (r: string)
    ensures r != ""
  {
    match s
    case OIDC => "oidc"
    case Kubeconfig => "kubeconfig"
    case Local => "local"
  }

  lemma SourceNameInjective(a: SessionSource, b: SessionSource)
    requires SourceName(a) == SourceName(b)
    ensures a == b
  {
  }

  /** `toSessionResponse`: the expiry is left out exactly when it is the zero time. */
  function ToSessionResponse(s: Session): (r: SessionResponse)
    ensures r.subject == s.subject && r.source == SourceName(s.source) && r.context == s.context
    ensures r.hasRefresh <==> s.refreshToken != ""
    ensures r.expiresAt.None? <==> s.expiresAt == 0
    ensures r.expiresAt.Some? ==> r.expiresAt.value == s.expiresAt
  {
    SessionResponse(s.subject, SourceName(s.source), s.context, s.refreshToken != "",
                    if s.expiresAt == 0 then None else Some(s.expiresAt))
  }

  /**
   * `OIDCStart`: 503 without a client; otherwise a new state is stored, and
   * when the URL can be built the PKCE verifier is stored under that state.
   */
  method OIDCStart(m: Manager, client: Option<OIDCClient>, id: string, now: Time)
    returns (reply: Reply<StartResponse, AuthError>)
    requires m.Valid()
    modifies m
    ensures m.Valid()
    ensures client.None? ==> reply == ErrorJson(503, ServiceUnavailable) && unchanged(m)
    ensures client.Some? ==> m.stateStore == old(m.stateStore)[id := now + StateLifetime]
    ensures client.Some? && client.value.authCodeURL(id).Err? ==>
      reply == ErrorJson(500, Upstream(client.value.authCodeURL(id).error))
      && m.codeVerifierStore == old(m.codeVerifierStore)
    ensures client.Some? && client.value.authCodeURL(id).Ok? ==>
      var (url, verifier) := client.value.authCodeURL(id).value;
      reply == Json(200, StartResponse(url, id)) && m.codeVerifierStore == old(m.codeVerifierStore)[id := verifier]
    ensures m.sessions == old(m.sessions)
  {
    if client.None? {
      return ErrorJson(503, ServiceUnavailable);
    }
    var state := m.NewState(id, now);
    var built := client.value.authCodeURL(state);
    if built.Err? {
      return ErrorJson(500, Upstream(built.error));
    }
    var (url, codeVerifier) := built.value;
    m.StoreCodeVerifier(state, codeVerifier);
    return Json(200, StartResponse(url, state));
  }

  /**
   * `OIDCCallback`: 503 without a client, then 400 for a bad state, then 400 for
   * a missing code, then 400 when the exchange fails. The state is consumed as
   * soon as a client exists; the verifier only once the code is present.
   */
  method OIDCCallback(m: Manager, client: Option<OIDCClient>, state: string, code: string, id: string, now: Time)
    returns (reply: Reply<SessionResponse, AuthError>, cookie: Option<Cookie>)
    requires m.Valid()
    modifies m
    ensures m.Valid()
    ensures client.None? ==> reply == ErrorJson(503, ServiceUnavailable) && cookie.None? && unchanged(m)
    ensures client.Some? ==> m.stateStore == ConsumeState(old(m.stateStore), state, now).1
    ensures client.Some? && !ConsumeState(old(m.stateStore), state, now).0 ==>
      reply == ErrorJson(400, InvalidState) && cookie.None? && m.codeVerifierStore == old(m.codeVerifierStore)
    ensures client.Some? && ConsumeState(old(m.stateStore), state, now).0 && code == "" ==>
      reply == ErrorJson(400, BadRequest) && cookie.None? && m.codeVerifierStore == old(m.codeVerifierStore)
    ensures client.Some? && ConsumeState(old(m.stateStore), state, now).0 && code != "" ==>
      var (verifier, rest) := TakeVerifier(old(m.codeVerifierStore), state);
      var exchanged := client.value.exchange(code, verifier);
      && m.codeVerifierStore == rest
      && (exchanged.Err? ==> reply == ErrorJson(400, Upstream(exchanged.error)) && cookie.None?
                              && m.sessions == old(m.sessions))
      && (exchanged.Ok? ==>
            var s := Session(id, OIDC, DisplayName(exchanged.value), exchanged.value.accessToken,
                             exchanged.value.refreshToken, exchanged.value.tokenType, exchanged.value.expiry,
                             "", m.oidcContext, now);
            && m.sessions == old(m.sessions)[id := s]
            && reply == Json(200, ToSessionResponse(s))
            && cookie == Some(SessionCookie(m.cfg, id)))
    ensures reply.ErrorJson? ==> m.sessions == old(m.sessions)
  {
    cookie := None;
    if client.None? {
      return ErrorJson(503, ServiceUnavailable), None;
    }
    var valid := m.ValidateState(state, now);
    if !valid {
      return ErrorJson(400, InvalidState), None;
    }
    if code == "" {
      return ErrorJson(400, BadRequest), None;
    }
    var codeVerifier := m.GetCodeVerifier(state);
    var exchanged := client.value.exchange(code, codeVerifier);
    if exchanged.Err? {
      return ErrorJson(400, Upstream(exchanged.error)), None;
    }
    var payload := exchanged.value;
    var session := m.NewSessionFromOIDC(DisplayName(payload), payload, id, now);
    return Json(200, ToSessionResponse(session)), Some(SessionCookie(m.cfg, session.id));
  }

  /** The context a kubeconfig login uses: the requested one, trimmed, else the file's current-context. */
  function LoginContext(req: KubeconfigRequest, kc: Contexts.Kubeconfig): (r: string)
    ensures TrimSpace(req.context) != "" ==> r == TrimSpace(req.context)
    ensures TrimSpace(req.context) == "" ==> r == kc.currentContext
  {
    var requested := TrimSpace(req.context);
    if requested != "" then requested else kc.currentContext
  }

  /** The session subject of a kubeconfig login: the requested user, else the context name. */
  function LoginSubject(req: KubeconfigRequest, contextName: string): (r: string)
    ensures req.user != "" ==> r == req.user
    ensures req.user == "" ==> r == contextName
  {
    if req.user != "" then req.user else contextName
  }

  /**
   * `KubeconfigLogin`: `body` is None when the JSON does not bind, `parse` is
   * None when the kubeconfig does not load; both are 400, as is a context the
   * kubeconfig does not define.
   */
  method KubeconfigLogin(m: Manager, body: Option<KubeconfigRequest>,
                         parse: string -> Result<Contexts.Kubeconfig, string>, id: string, now: Time)
    returns (reply: Reply<SessionResponse, AuthError>, cookie: Option<Cookie>)
    requires m.Valid()
    modifies m
    ensures m.Valid()
    ensures body.None? ==> reply.ErrorJson? && reply.status == 400 && cookie.None? && unchanged(m)
    ensures body.Some? && parse(body.value.kubeconfig).Err? ==>
      reply == ErrorJson(400, Upstream(parse(body.value.kubeconfig).error)) && cookie.None? && unchanged(m)
    ensures body.Some? && parse(body.value.kubeconfig).Ok? ==>
      var req := body.value;
      var kc := parse(req.kubeconfig).value;
      var contextName := LoginContext(req, kc);
      && (!Contexts.HasContext(kc, contextName) ==> reply == ErrorJson(400, BadRequest) && cookie.None? && unchanged(m))
      && (Contexts.HasContext(kc, contextName) ==>
            var s := Session(id, Kubeconfig, LoginSubject(req, contextName), "", "", "",
                             now + m.cfg.sessionTTL, req.kubeconfig, contextName, now);
            && m.sessions == old(m.sessions)[id := s]
            && m.stateStore == old(m.stateStore) && m.codeVerifierStore == old(m.codeVerifierStore)
            && reply == Json(200, ToSessionResponse(s))
            && cookie == Some(SessionCookie(m.cfg, id)))
  {
    if body.None? {
      return ErrorJson(400, Upstream("malformed request body")), None;
    }
    var req := body.value;
    req := req.(context := TrimSpace(req.context));
    var loaded := parse(req.kubeconfig);
    if loaded.Err? {
      return ErrorJson(400, Upstream(loaded.error)), None;
    }
    var cfg := loaded.value;
    var contextName := req.context;
    if contextName == "" {
      contextName := cfg.currentContext;
    }
    if !Contexts.HasContext(cfg, contextName) {
      return ErrorJson(400, BadRequest), None;
    }
    var subject := req.user;
    if subject == "" {
      subject := contextName;
    }
    var session := m.NewSessionFromKubeconfig(subject, req.kubeconfig, contextName, id, now);
    return Json(200, ToSessionResponse(session)), Some(SessionCookie(m.cfg, session.id));
  }

  /** `SessionInfo`: the caller's session, or a bare 401. */
  function SessionInfo(m: Manager, cookies: map<string, string>, now: Time): (r: Reply<SessionResponse, AuthError>)
    reads m
    ensures m.SessionFromRequest(cookies, now).None? <==> r == Empty(401)
    ensures m.SessionFromRequest(cookies, now).Some? ==>
      r == Json(200, ToSessionResponse(m.SessionFromRequest(cookies, now).value))
  {
    match m.SessionFromRequest(cookies, now)
    case None => Empty(401)
    case Some(s) => Json(200, ToSessionResponse(s))
  }

  /** `Logout`: delete the caller's live session if any, always clear the cookie, always 204. */
  method Logout(m: Manager, cookies: map<string, string>, now: Time)
    returns (reply: Reply<SessionResponse, AuthError>, cookie: Cookie)
    requires m.Valid()
    modifies m
    ensures m.Valid()
    ensures reply == Empty(204) && cookie == ClearedCookie(m.cfg)
    ensures old(m.SessionFromRequest(cookies, now)).Some? ==>
      m.sessions == old(m.sessions) - {old(m.SessionFromRequest(cookies, now)).value.id}
    ensures old(m.SessionFromRequest(cookies, now)).None? ==> m.sessions == old(m.sessions)
    ensures m.SessionFromRequest(cookies, now).None?
    ensures m.stateStore == old(m.stateStore) && m.codeVerifierStore == old(m.codeVerifierStore)
  {
    var found := m.SessionFromRequest(cookies, now);
    if found.Some? {
      m.DeleteSession(found.value.id);
    }
    return Empty(204), ClearedCookie(m.cfg);
  }
}

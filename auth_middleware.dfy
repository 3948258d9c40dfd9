/** The authentication gate in front of the protected API routes. */
module AuthMiddleware {
  import opened Wrappers
  import opened Config
  import opened AuthManager

  /** The gate's decision: continue as is, continue with the session attached, or stop with 401. */
  datatype GateOutcome = Pass | PassWithSession(session: Session) | Unauthorized(status: int, error: string)

  /** `Auth`: dev bypass skips everything; otherwise the request's session cookie must name a live session. */
  function Gate(m: Manager, cfg: AuthConfig, cookies: map<string, string>, now: Time): (r: GateOutcome)
    reads m
    ensures cfg.enableDevBypass <==> r == Pass
    ensures !cfg.enableDevBypass ==>
      (r == Unauthorized(401, "unauthorized") <==> m.SessionFromRequest(cookies, now).None?)
    ensures r.PassWithSession? ==> m.SessionFromRequest(cookies, now) == Some(r.session)
    ensures !cfg.enableDevBypass && m.SessionFromRequest(cookies, now).Some? ==>
      r == PassWithSession(m.SessionFromRequest(cookies, now).value)
  {
    if cfg.enableDevBypass then Pass
    else
      match m.SessionFromRequest(cookies, now)
      case None => Unauthorized(401, "unauthorized")
      case Some(session) => PassWithSession(session)
  }

  /** A request goes on to the handler iff dev bypass is on or its cookie names a live session. */
  lemma GateAdmitsIff(m: Manager, cfg: AuthConfig, cookies: map<string, string>, now: Time)
    ensures !Gate(m, cfg, cookies, now).Unauthorized? <==>
      cfg.enableDevBypass || (CookieName(m.cfg) in cookies && FindSession(m.sessions, cookies[CookieName(m.cfg)], now).Some?)
  {
  }

  /** An expired kubeconfig or local session does not get through the gate. */
  lemma ExpiredSessionRejected(m: Manager, cfg: AuthConfig, cookies: map<string, string>, now: Time)
    requires !cfg.enableDevBypass
    requires CookieName(m.cfg) in cookies
    requires cookies[CookieName(m.cfg)] in m.sessions
    requires m.sessions[cookies[CookieName(m.cfg)]].source != OIDC
    requires m.sessions[cookies[CookieName(m.cfg)]].expiresAt < now
    ensures Gate(m, cfg, cookies, now) == Unauthorized(401, "unauthorized")
  {
  }

  /** An OIDC session gets through even after its token expired. */
  lemma ExpiredOidcSessionPasses(m: Manager, cfg: AuthConfig, cookies: map<string, string>, now: Time)
    requires !cfg.enableDevBypass
    requires CookieName(m.cfg) in cookies
    requires cookies[CookieName(m.cfg)] in m.sessions
    requires m.sessions[cookies[CookieName(m.cfg)]].source == OIDC
    ensures Gate(m, cfg, cookies, now) == PassWithSession(m.sessions[cookies[CookieName(m.cfg)]])
  {
  }
}

/**
 * First-run setup and local login. The user store's queries and bcrypt are
 * abstract: their outcomes are parameters.
 */
module SetupHandlers {
  import opened Wrappers
  import opened Config
  import opened AuthManager
  import opened HandlersCommon
  import opened UsersStore
  import opened AuthHandlers

  datatype AuthStatusResponse = AuthStatusResponse(needsSetup: bool, authMethods: seq<string>)

  datatype SetupRequest = SetupRequest(username: string, password: string)

  datatype LoginRequest = LoginRequest(username: string, password: string)

  /**
   * Why a setup or login request failed: a store error, the package's
   * `ErrBadRequest` ("bad request"), or a body that does not bind.
   */
  datatype SetupError = Store(cause: StoreError) | BadRequest | Malformed

  /** The binding rules of the setup request: a username of 3 to 50 characters, a password of at least 6. */
  predicate SetupRequestValid(req: SetupRequest) {
    3 <= |req.username| <= 50 && |req.password| >= 6
  }

  /** The binding rules of the login request: both fields present. */
  predicate LoginRequestValid(req: LoginRequest) {
    req.username != "" && req.password != ""
  }

  /** `AuthStatus`: local login always, OIDC after it when enabled; setup is needed when no user exists. */
  method AuthStatus(count: Result<int, DbError>, oidcEnabled: bool)
    returns (reply: Reply<AuthStatusResponse, SetupError>)
    ensures count.Err? ==> reply == ErrorJson(500, Store(Db(count.error)))
    ensures count.Ok? ==> reply.Json? && reply.status == 200
    ensures count.Ok? ==> (reply.payload.needsSetup <==> count.value == 0)
    ensures count.Ok? ==> |reply.payload.authMethods| >= 1 && reply.payload.authMethods[0] == "local"
    ensures count.Ok? ==> (reply.payload.authMethods == ["local", "oidc"] <==> oidcEnabled)
    ensures count.Ok? ==> (reply.payload.authMethods == ["local"] <==> !oidcEnabled)
  {
    if count.Err? {
      return ErrorJson(500, Store(Db(count.error)));
    }
    var methods := ["local"];
    if oidcEnabled {
      methods := methods + ["oidc"];
    }
    return Json(200, AuthStatusResponse(count.value == 0, methods));
  }

  /** The response of a local session: no refresh token and no expiry field. */
  function LocalSessionResponse(s: Session): (r: SessionResponse)
    ensures r.subject == s.subject && r.source == SourceName(s.source) && r.context == s.context
    ensures !r.hasRefresh && r.expiresAt.None?
  {
    SessionResponse(s.subject, SourceName(s.source), s.context, false, None)
  }

  /**
   * `InitialSetup`: once any user exists, refuses with status 403 carrying
   * `ErrBadRequest`, before the body is read; then the body must bind; then the user is created as "admin" (409 when
   * the name is taken) and logged in.
   */
  method InitialSetup(m: Manager, count: Result<int, DbError>, body: Option<SetupRequest>,
                      createUser: (string, string, string) -> Result<User, StoreError>,
                      defaultContext: string, id: string, now: Time)
    returns (reply: Reply<SessionResponse, SetupError>, cookie: Option<Cookie>)
    requires m.Valid()
    modifies m
    ensures m.Valid()
    ensures count.Err? ==> reply == ErrorJson(500, Store(Db(count.error))) && cookie.None? && unchanged(m)
    ensures count.Ok? && count.value > 0 ==> reply == ErrorJson(403, SetupError.BadRequest) && cookie.None? && unchanged(m)
    ensures count.Ok? && count.value <= 0 && (body.None? || !SetupRequestValid(body.value)) ==>
      reply == ErrorJson(400, Malformed) && cookie.None? && unchanged(m)
    ensures count.Ok? && count.value <= 0 && body.Some? && SetupRequestValid(body.value) ==>
      var created := createUser(body.value.username, body.value.password, "admin");
      && (created == Err(UserAlreadyExists) ==> reply == ErrorJson(409, Store(UserAlreadyExists)) && unchanged(m))
      && (created.Err? && created != Err(UserAlreadyExists) ==> reply == ErrorJson(500, Store(created.error)) && unchanged(m))
      && (created.Ok? ==>
            var s := Session(id, Local, created.value.username, "", "", "", now + m.cfg.sessionTTL, "", defaultContext, now);
            && m.sessions == old(m.sessions)[id := s]
            && reply == Json(200, LocalSessionResponse(s))
            && cookie == Some(SessionCookie(m.cfg, id)))
  {
    if count.Err? {
      return ErrorJson(500, Store(Db(count.error))), None;
    }
    if count.value > 0 {
      return ErrorJson(403, SetupError.BadRequest), None;
    }
    if body.None? || !SetupRequestValid(body.value) {
      return ErrorJson(400, Malformed), None;
    }
    var req := body.value;
    var created := createUser(req.username, req.password, "admin");
    if created.Err? {
      if created.error == UserAlreadyExists {
        return ErrorJson(409, Store(created.error)), None;
      }
      return ErrorJson(500, Store(created.error)), None;
    }
    var user := created.value;
    var session := m.NewSessionFromLocal(user.username, user.role, defaultContext, id, now);
    return Json(200, LocalSessionResponse(session)), Some(SessionCookie(m.cfg, session.id));
  }

  /**
   * `LocalLogin`: an unknown user and a wrong password get the same 401
   * `invalid password`; other lookup failures are 500.
   */
  method LocalLogin(m: Manager, body: Option<LoginRequest>,
                    getUserByUsername: string -> Result<User, StoreError>,
                    verifyPassword: (User, string) -> bool,
                    defaultContext: string, id: string, now: Time)
    returns (reply: Reply<SessionResponse, SetupError>, cookie: Option<Cookie>)
    requires m.Valid()
    modifies m
    ensures m.Valid()
    ensures body.None? || !LoginRequestValid(body.value) ==>
      reply == ErrorJson(400, Malformed) && cookie.None? && unchanged(m)
    ensures body.Some? && LoginRequestValid(body.value) ==>
      var req := body.value;
      var found := getUserByUsername(req.username);
      && ((found == Err(UserNotFound) || (found.Ok? && !verifyPassword(found.value, req.password)))
            <==> reply == ErrorJson(401, Store(InvalidPassword)))
      && (found.Err? && found != Err(UserNotFound) ==> reply == ErrorJson(500, Store(found.error)))
      && (found.Ok? && verifyPassword(found.value, req.password) ==>
            var s := Session(id, Local, found.value.username, "", "", "", now + m.cfg.sessionTTL, "", defaultContext, now);
            && m.sessions == old(m.sessions)[id := s]
            && reply == Json(200, LocalSessionResponse(s))
            && cookie == Some(SessionCookie(m.cfg, id)))
      && (reply.ErrorJson? ==> cookie.None? && unchanged(m))
  {
    if body.None? || !LoginRequestValid(body.value) {
      return ErrorJson(400, Malformed), None;
    }
    var req := body.value;
    var found := getUserByUsername(req.username);
    if found.Err? {
      if found.error == UserNotFound {
        return ErrorJson(401, Store(InvalidPassword)), None;
      }
      return ErrorJson(500, Store(found.error)), None;
    }
    var user := found.value;
    if !verifyPassword(user, req.password) {
      return ErrorJson(401, Store(InvalidPassword)), None;
    }
    var session := m.NewSessionFromLocal(user.username, user.role, defaultContext, id, now);
    return Json(200, LocalSessionResponse(session)), Some(SessionCookie(m.cfg, session.id));
  }
}

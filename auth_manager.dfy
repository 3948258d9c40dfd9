/**
 * The in-memory session table and the OIDC state and PKCE verifier stores.
 * The clock (`now`) and the random identifiers are parameters; the mutex is
 * not modelled, every operation runs on its own.
 */
module AuthManager {
  import opened Wrappers
  import opened Config

  const StateLifetime: int := 10 * Minute

  datatype SessionSource = OIDC | Kubeconfig | Local

  datatype Session = Session(
    id: string, source: SessionSource, subject: string,
    accessToken: string, refreshToken: string, tokenType: string,
    expiresAt: Time, kubeconfig: string, context: string, createdAt: Time)

  /** What the OIDC code exchange hands back. */
  datatype OIDCTokenPayload = OIDCTokenPayload(
    accessToken: string, refreshToken: string, tokenType: string, expiry: Time,
    subject: string, email: string, name: string)

  /** A `Set-Cookie` the handlers write: the session cookie or its deletion (max-age -1). */
  datatype Cookie = Cookie(
    name: string, value: string, maxAge: int, path: string, domain: string,
    secure: bool, httpOnly: bool)

  // ---------------------------------------------------------------- the rules

  /**
   * `SessionByID`'s rule: a stored session is returned unless it has expired;
   * expired OIDC sessions are still returned.
   */
  function FindSession(sessions: map<string, Session>, id: string, now: Time): (r: Option<Session>)
    ensures r.Some? <==> id in sessions && (sessions[id].source == OIDC || !(sessions[id].expiresAt < now))
    ensures r.Some? ==> r.value == sessions[id]
  {
    if id !in sessions then None
    else
      var s := sessions[id];
      if s.expiresAt < now && s.source != OIDC then None else Some(s)
  }

  /** `ValidateState`'s rule: the answer, and the store with the state removed if it was there. */
  function ConsumeState(store: map<string, Time>, state: string, now: Time): (r: (bool, map<string, Time>))
    ensures r.0 <==> state in store && now < store[state]
    ensures r.1 == store - {state}
  {
    if state !in store then (false, store)
    else (now < store[state], store - {state})
  }

  /** `GetCodeVerifier`'s rule: the stored verifier or "", and the store without it. */
  function TakeVerifier(store: map<string, string>, state: string): (r: (string, map<string, string>))
    ensures state in store ==> r.0 == store[state]
    ensures state !in store ==> r.0 == ""
    ensures state !in r.1 && forall k | k in store && k != state :: k in r.1 && r.1[k] == store[k]
    ensures r.1.Keys == store.Keys - {state}
  {
    (if state in store then store[state] else "", store - {state})
  }

  /** `cookieName`: the configured name, else "kz_session"; never empty. */
  function CookieName(cfg: AuthConfig): (r: string)
    ensures r != ""
    ensures cfg.sessionName != "" ==> r == cfg.sessionName
    ensures cfg.sessionName == "" ==> r == "kz_session"
  {
    if cfg.sessionName != "" then cfg.sessionName else "kz_session"
  }

  /** `DisplayName`: e-mail, then name, then subject, then "user"; never empty. */
  function DisplayName(payload: OIDCTokenPayload): (r: string)
    ensures r != ""
    ensures payload.email != "" ==> r == payload.email
    ensures payload.email == "" && payload.name != "" ==> r == payload.name
    ensures payload.email == "" && payload.name == "" && payload.subject != "" ==> r == payload.subject
    ensures payload.email == "" && payload.name == "" && payload.subject == "" ==> r == "user"
  {
    if payload.email != "" then payload.email
    else if payload.name != "" then payload.name
    else if payload.subject != "" then payload.subject
    else "user"
  }

  /** `int(d.Seconds())`: whole seconds of a duration, truncated toward zero as Go's conversion does. */
  function WholeSeconds(d: int): (r: int)
    ensures d >= 0 ==> 0 <= r && r * Second <= d < (r + 1) * Second
    ensures d < 0 ==> r <= 0 && (r - 1) * Second < d <= r * Second
  {
    if d >= 0 then d / Second else -((-d) / Second)
  }

  /**
   * `WriteSessionCookie`: HTTP-only, path "/", the configured domain and
   * secure flag, living as long as a session.
   */
  function SessionCookie(cfg: AuthConfig, sessionID: string): (c: Cookie)
    ensures c.name == CookieName(cfg) && c.value == sessionID
    ensures c.maxAge == WholeSeconds(cfg.sessionTTL)
    ensures c.path == "/" && c.domain == cfg.sessionDomain
    ensures c.secure == cfg.sessionSecure && c.httpOnly
  {
    Cookie(CookieName(cfg), sessionID, WholeSeconds(cfg.sessionTTL), "/", cfg.sessionDomain, cfg.sessionSecure, true)
  }

  /** `ClearSessionCookie`: same name, path and domain, empty value, max-age -1 deletes it. */
  function ClearedCookie(cfg: AuthConfig): (c: Cookie)
    ensures c.name == CookieName(cfg) && c.value == "" && c.maxAge < 0
    ensures c.path == "/" && c.domain == cfg.sessionDomain
    ensures c.secure == cfg.sessionSecure && c.httpOnly
  {
    Cookie(CookieName(cfg), "", -1, "/", cfg.sessionDomain, cfg.sessionSecure, true)
  }

  /**
   * The clearing cookie names the same cookie as any session cookie (name,
   * path and domain agree, section 5.3 of RFC 6265) and expires it at once.
   */
  lemma ClearedCookieReplacesSessionCookie(cfg: AuthConfig, sessionID: string)
    ensures var (written, cleared) := (SessionCookie(cfg, sessionID), ClearedCookie(cfg));
      && cleared.name == written.name && cleared.path == written.path && cleared.domain == written.domain
      && cleared.maxAge <= 0 && cleared.value == ""
  {
  }

  /** With a positive TTL the session cookie outlives its request, for the TTL's whole seconds. */
  lemma SessionCookieLifetime(cfg: AuthConfig, sessionID: string)
    requires cfg.sessionTTL >= Second
    ensures SessionCookie(cfg, sessionID).maxAge >= 1
    ensures SessionCookie(cfg, sessionID).maxAge * Second <= cfg.sessionTTL
  {
  }

  // ---------------------------------------------------------------- properties of the rules

  /** A fresh non-OIDC session is found under its own id until it expires. */
  lemma InsertedSessionFound(sessions: map<string, Session>, s: Session, now: Time)
    requires s.source == OIDC || now <= s.expiresAt
    ensures FindSession(sessions[s.id := s], s.id, now) == Some(s)
  {
  }

  /** Inserting one session changes no lookup of another id. */
  lemma InsertKeepsOthers(sessions: map<string, Session>, s: Session, id: string, now: Time)
    requires id != s.id
    ensures FindSession(sessions[s.id := s], id, now) == FindSession(sessions, id, now)
  {
  }

  /** After deleting an id, it is never found; every other id is found as before. */
  lemma DeleteSessionEffect(sessions: map<string, Session>, id: string, other: string, now: Time)
    ensures FindSession(sessions - {id}, id, now) == None
    ensures other != id ==> FindSession(sessions - {id}, other, now) == FindSession(sessions, other, now)
  {
  }

  /** Non-OIDC sessions vanish once expired, whatever the lookup time after that. */
  lemma ExpiryIsFinal(sessions: map<string, Session>, id: string, t1: Time, t2: Time)
    requires t1 <= t2
    requires FindSession(sessions, id, t1).None?
    requires id in sessions && sessions[id].source != OIDC
    ensures FindSession(sessions, id, t2).None?
  {
  }

  /** A state issued at `issued` validates once within its ten minutes, and never again. */
  lemma {:induction false} StateSingleUse(store: map<string, Time>, state: string, issued: Time, t1: Time, t2: Time)
    requires issued <= t1 < issued + StateLifetime
    ensures ConsumeState(store[state := issued + StateLifetime], state, t1).0
    ensures !ConsumeState(ConsumeState(store[state := issued + StateLifetime], state, t1).1, state, t2).0
  {
    var after := ConsumeState(store[state := issued + StateLifetime], state, t1).1;
    assert state !in after;
  }

  /** A state validated at or after its expiry fails, and is removed all the same. */
  lemma ExpiredStateRejected(store: map<string, Time>, state: string, issued: Time, now: Time)
    requires now >= issued + StateLifetime
    ensures ConsumeState(store[state := issued + StateLifetime], state, now) == (false, store - {state})
  {
    assert store[state := issued + StateLifetime] - {state} == store - {state};
  }

  /** A stored verifier is handed out once; a second take finds "". */
  lemma VerifierTakenOnce(store: map<string, string>, state: string, verifier: string)
    ensures TakeVerifier(store[state := verifier], state).0 == verifier
    ensures TakeVerifier(TakeVerifier(store[state := verifier], state).1, state).0 == ""
  {
  }

  // ---------------------------------------------------------------- the manager

  class Manager {
    const cfg: AuthConfig
    /** The context OIDC sessions are bound to; the source reads it from a configuration field it does not declare. */
    const oidcContext: string
    var sessions: map<string, Session>
    var stateStore: map<string, Time>
    var codeVerifierStore: map<string, string>

    /** Every session is stored under its own id. */
    predicate Valid()
      reads this
    {
      forall id | id in sessions :: sessions[id].id == id
    }

    /** `NewManager`: three empty stores. */
    constructor (cfg: AuthConfig, oidcContext: string)
      ensures this.cfg == cfg && this.oidcContext == oidcContext
      ensures sessions == map[] && stateStore == map[] && codeVerifierStore == map[]
      ensures Valid()
    {
      this.cfg := cfg;
      this.oidcContext := oidcContext;
      sessions := map[];
      stateStore := map[];
      codeVerifierStore := map[];
    }

    /** `NewSessionFromOIDC`: expires with the token; `id` is the fresh random identifier. */
    method NewSessionFromOIDC(subject: string, token: OIDCTokenPayload, id: string, now: Time) returns (s: Session)
      requires Valid()
      modifies this
      ensures Valid()
      ensures s == Session(id, OIDC, subject, token.accessToken, token.refreshToken, token.tokenType,
                           token.expiry, "", oidcContext, now)
      ensures sessions == old(sessions)[id := s]
      ensures stateStore == old(stateStore) && codeVerifierStore == old(codeVerifierStore)
    {
      s := Session(id, OIDC, subject, token.accessToken, token.refreshToken, token.tokenType,
                   token.expiry, "", oidcContext, now);
      sessions := sessions[id := s];
    }

    /** `NewSessionFromKubeconfig`: expires one session lifetime after creation. */
    method NewSessionFromKubeconfig(subject: string, rawConfig: string, context: string, id: string, now: Time)
      returns (s: Session)
      requires Valid()
      modifies this
      ensures Valid()
      ensures s == Session(id, Kubeconfig, subject, "", "", "", now + cfg.sessionTTL, rawConfig, context, now)
      ensures sessions == old(sessions)[id := s]
      ensures stateStore == old(stateStore) && codeVerifierStore == old(codeVerifierStore)
    {
      s := Session(id, Kubeconfig, subject, "", "", "", now + cfg.sessionTTL, rawConfig, context, now);
      sessions := sessions[id := s];
    }

    /** `NewSessionFromLocal`: like a kubeconfig session, without a kubeconfig; the role is not kept. */
    method NewSessionFromLocal(username: string, role: string, context: string, id: string, now: Time)
      returns (s: Session)
      requires Valid()
      modifies this
      ensures Valid()
      ensures s == Session(id, Local, username, "", "", "", now + cfg.sessionTTL, "", context, now)
      ensures sessions == old(sessions)[id := s]
      ensures stateStore == old(stateStore) && codeVerifierStore == old(codeVerifierStore)
    {
      s := Session(id, Local, username, "", "", "", now + cfg.sessionTTL, "", context, now);
      sessions := sessions[id := s];
    }

    function SessionByID(id: string, now: Time): (r: Option<Session>)
      reads this
      ensures r.Some? <==> id in sessions && (sessions[id].source == OIDC || !(sessions[id].expiresAt < now))
      ensures r.Some? ==> r.value == sessions[id]
    {
      FindSession(sessions, id, now)
    }

    /** `SessionFromRequest`: no session cookie, no session; else the cookie's id is looked up. */
    function SessionFromRequest(cookies: map<string, string>, now: Time): (r: Option<Session>)
      reads this
      ensures CookieName(cfg) !in cookies ==> r.None?
      ensures CookieName(cfg) in cookies ==> r == FindSession(sessions, cookies[CookieName(cfg)], now)
    {
      var name := CookieName(cfg);
      if name !in cookies then None else SessionByID(cookies[name], now)
    }

    method DeleteSession(id: string)
      requires Valid()
      modifies this
      ensures Valid()
      ensures sessions == old(sessions) - {id}
      ensures stateStore == old(stateStore) && codeVerifierStore == old(codeVerifierStore)
    {
      sessions := sessions - {id};
    }

    /** `NewState`: a fresh state that expires ten minutes from now. */
    method NewState(id: string, now: Time) returns (state: string)
      requires Valid()
      modifies this
      ensures Valid()
      ensures state == id
      ensures stateStore == old(stateStore)[state := now + StateLifetime]
      ensures sessions == old(sessions) && codeVerifierStore == old(codeVerifierStore)
    {
      state := id;
      stateStore := stateStore[state := now + StateLifetime];
    }

    /** `ValidateState`: a found state is deleted whether or not it is still valid. */
    method ValidateState(state: string, now: Time) returns (ok: bool)
      requires Valid()
      modifies this
      ensures Valid()
      ensures (ok, stateStore) == ConsumeState(old(stateStore), state, now)
      ensures sessions == old(sessions) && codeVerifierStore == old(codeVerifierStore)
    {
      if state !in stateStore {
        return false;
      }
      var expiry := stateStore[state];
      stateStore := stateStore - {state};
      return now < expiry;
    }

    /** `StoreCodeVerifier`: overwrites any verifier already stored for the state. */
    method StoreCodeVerifier(state: string, verifier: string)
      requires Valid()
      modifies this
      ensures Valid()
      ensures codeVerifierStore == old(codeVerifierStore)[state := verifier]
      ensures sessions == old(sessions) && stateStore == old(stateStore)
    {
      codeVerifierStore := codeVerifierStore[state := verifier];
    }

    /** `GetCodeVerifier`: retrieve and remove. */
    method GetCodeVerifier(state: string) returns (verifier: string)
      requires Valid()
      modifies this
      ensures Valid()
      ensures (verifier, codeVerifierStore) == TakeVerifier(old(codeVerifierStore), state)
      ensures sessions == old(sessions) && stateStore == old(stateStore)
    {
      verifier := if state in codeVerifierStore then codeVerifierStore[state] else "";
      codeVerifierStore := codeVerifierStore - {state};
    }
  }
}

/** Sessions, authorization codes and refresh tokens: what each request of the
    server does to the database, one committed transaction at a time.

    The functions of this module are the specification of the services; a
    request that is refused leaves the database as it was (rollback), except
    that the reuse of a refresh token commits the revocation it triggers. */
module Protocol {
  import opened Prelude
  import opened Tables
  import Throttle

  datatype Refusal =
    | InvalidGrant | RefreshReuse | InvalidScope | InvalidToken | InvalidClient
    | AccessDenied | Unavailable | NotFound | BadRequest | Conflict

  datatype TokenResponse = TokenResponse(
    access: Jwt, refresh: Jwt, idToken: Option<Jwt>,
    expiresIn: int, refreshExpiresIn: int, session: Id, scope: Scope)

  datatype Reply =
    | Tokens(response: TokenResponse)
    | CodeIssued(code: Id, codeSession: Id)
    | LoginPage(tab: Id)
    | Verified(claims: Claims)
    | Answer(yes: bool)
    | Done
    | Refused(error: Refusal)

  // ---------------------------------------------------------------- single statements

  function Draw(db: Db, n: nat): Db { db.(supply := db.supply + n) }

  function PutSession(db: Db, s: Id, row: UserSession): Db {
    db.(sessions := db.sessions[s := row])
  }

  function PutCode(db: Db, c: Id, row: Code): Db {
    db.(codes := db.codes[c := row])
  }

  function PutToken(db: Db, t: Id, row: RefreshToken): Db {
    db.(tokens := db.tokens[t := row])
  }

  function PutAuth(db: Db, a: Id, row: AuthSession): Db {
    db.(authSessions := db.authSessions[a := row])
  }

  function PutKey(db: Db, k: Id, row: Key): Db {
    db.(keys := db.keys[k := row])
  }

  /** `EventService.record` for rows that the request has just used. */
  function LogEvent(db: Db, row: Event): Db {
    db.(events := db.events[db.supply := row], supply := db.supply + 1)
  }

  /** A protocol request writes sessions, codes, tokens, authentication sessions
      and events only. */
  predicate OnlyRows(a: Db, b: Db) {
    b.ids == a.ids && b.keys == a.keys && b.buckets == a.buckets && b.resetEmails == a.resetEmails
  }

  /** A key may be deactivated; an inactive one never changes, and no other column does. */
  predicate KeyForward(x: Key, y: Key) {
    y == x.(active := y.active, deactivatedAt := y.deactivatedAt) && (!x.active ==> y == x)
  }

  ghost predicate OnlyKeys(a: Db, b: Db) {
    && b == a.(keys := b.keys, supply := b.supply) && a.supply <= b.supply
    && forall k | k in a.keys && k < a.supply :: k in b.keys && KeyForward(a.keys[k], b.keys[k])
  }

  predicate OnlyBuckets(a: Db, b: Db) {
    b == a.(buckets := b.buckets)
  }

  // ---------------------------------------------------------------- queries

  predicate Expired(s: UserSession, now: Time) {
    s.idleExpires <= now || s.maxExpires <= now
  }

  predicate Live(s: UserSession, now: Time) {
    s.revokedAt.None? && !Expired(s, now)
  }

  predicate IdentitiesEnabled(db: Db, s: UserSession, realm: Id) {
    && s.realm == realm
    && realm in db.ids.realms && db.ids.realms[realm].enabled
    && s.user in db.ids.users && db.ids.users[s.user].realm == realm && db.ids.users[s.user].enabled
    && s.client in db.ids.clients && db.ids.clients[s.client].realm == realm && db.ids.clients[s.client].enabled
  }

  /** `UserSessionRepository.eligible`. */
  predicate Eligible(db: Db, sid: Id, realm: Id, now: Time) {
    && sid in db.sessions
    && IdentitiesEnabled(db, db.sessions[sid], realm)
    && Live(db.sessions[sid], now)
  }

  predicate EnabledClient(db: Db, realm: Id, client: Id) {
    client in db.ids.clients && db.ids.clients[client].realm == realm && db.ids.clients[client].enabled
  }

  predicate EnabledAudience(db: Db, realm: Id, audience: string) {
    exists c | c in db.ids.clients :: EnabledClient(db, realm, c) && db.ids.clients[c].clientId == audience
  }

  /** `get_client`: the one client of a realm that carries a client id. */
  function ClientNamed(db: Db, realm: Id, name: string): Option<Id> {
    var found := set c | c in db.ids.clients && db.ids.clients[c].realm == realm && db.ids.clients[c].clientId == name;
    if |found| == 1 then Some(Only(found)) else None
  }

  /** The realm is served and the client passes `ClientService.authenticate`. */
  predicate Authenticated(db: Db, realm: Id, client: Id) {
    realm in db.ids.realms && db.ids.realms[realm].enabled && EnabledClient(db, realm, client)
  }

  predicate IsActiveKey(key: Key, realm: Id) {
    key.realm == realm && key.active && key.rs256
  }

  function ActiveKeys(keys: map<Id, Key>, realm: Id): set<Id> {
    set k | k in keys && IsActiveKey(keys[k], realm)
  }

  /** `TokenService._decode`: signature, issuer, audience, times and type. */
  predicate Decodes(db: Db, raw: Jwt, realm: Id, audience: string, typ: TokenType,
                    checkExpiry: bool, now: Time)
  {
    && raw.rs256 && raw.kid in db.keys
    && db.keys[raw.kid].realm == realm && db.keys[raw.kid].rs256
    && raw.signer == db.keys[raw.kid].publicPart
    && realm in db.ids.realms && raw.claims.iss == db.ids.realms[realm].issuer
    && (checkExpiry ==> now < raw.claims.exp * SECOND)
    && raw.claims.iat * SECOND <= now
    && raw.claims.typ == typ && raw.claims.aud == audience && raw.claims.azp == audience
  }

  /** `RefreshTokenRepository.get`. */
  predicate HasToken(db: Db, raw: Jwt, realm: Id, client: Id) {
    var t := raw.claims.jti;
    && t in db.tokens && db.tokens[t].hash == raw
    && db.tokens[t].realm == realm && db.tokens[t].client == client
  }

  /** `TokenService._refresh_matches` for a row that exists. */
  predicate RefreshMatches(row: RefreshToken, claims: Claims, sid: Id, session: UserSession, now: Time) {
    && row.revokedAt.None? && now < row.expiresAt && Floor(now) < claims.exp
    && row.user == session.user == claims.sub
    && row.session == sid && row.scope == claims.scope
    && claims.generation == Some(row.generation)
    && Floor(row.expiresAt) == claims.exp && Floor(session.authTime) == claims.authTime
  }

  /** A refresh token is verified against the unused row of its client. */
  predicate UnusedRowMatches(db: Db, raw: Jwt, realm: Id, client: Id, now: Time) {
    var t, sid := raw.claims.jti, raw.claims.sid;
    && HasToken(db, raw, realm, client) && sid in db.sessions
    && RefreshMatches(db.tokens[t], raw.claims, sid, db.sessions[sid], now)
    && db.tokens[t].usedAt.None?
  }

  /** `TokenService.verify`. */
  predicate Verifies(db: Db, raw: Jwt, realm: Id, audience: string, typ: TokenType, now: Time) {
    var sid := raw.claims.sid;
    && Decodes(db, raw, realm, audience, typ, true, now)
    && Eligible(db, sid, realm, now) && EnabledAudience(db, realm, audience)
    && db.sessions[sid].user == raw.claims.sub
    && raw.claims.authTime == Floor(db.sessions[sid].authTime)
    && (typ == Refresh ==>
          exists c | c in db.ids.clients ::
            && EnabledClient(db, realm, c) && db.ids.clients[c].clientId == audience
            && UnusedRowMatches(db, raw, realm, c, now))
  }

  /** `TokenService.verify_logout_hint`: expiry of the token is ignored, that of
      the session is not, and a revoked session still answers. */
  predicate HintVerifies(db: Db, raw: Jwt, realm: Id, audience: string, now: Time) {
    var sid := raw.claims.sid;
    && Decodes(db, raw, realm, audience, ID, false, now)
    && EnabledAudience(db, realm, audience)
    && sid in db.sessions && IdentitiesEnabled(db, db.sessions[sid], realm)
    && !Expired(db.sessions[sid], now)
    && db.sessions[sid].user == raw.claims.sub
    && raw.claims.authTime == Floor(db.sessions[sid].authTime)
  }

  // ---------------------------------------------------------------- sessions

  /** The row that `UserSessionService.create` adds. */
  function NewSession(db: Db, cfg: Config, realm: Id, client: Id, user: Id, now: Time): UserSession
    requires realm in db.ids.realms
  {
    var maximum := After(now, db.ids.realms[realm].maxSeconds, cfg.maxSeconds);
    UserSession(realm, client, user, now, now,
                Min(maximum, After(now, db.ids.realms[realm].idleSeconds, cfg.idleSeconds)), maximum, None)
  }

  predicate MayCreateSession(db: Db, realm: Id, client: Id, user: Id) {
    && Authenticated(db, realm, client)
    && user in db.ids.users && db.ids.users[user].enabled && db.ids.users[user].realm == realm
  }

  /** Both `UserSessionService.reuse` and a refresh extend the idle time this way. */
  function Extended(db: Db, cfg: Config, s: UserSession, now: Time): UserSession
    requires s.realm in db.ids.realms
  {
    s.(lastRefresh := now,
       idleExpires := Min(s.maxExpires, After(now, db.ids.realms[s.realm].idleSeconds, cfg.idleSeconds)))
  }

  function RevokedRow(row: RefreshToken, at: Time): RefreshToken {
    if row.revokedAt.None? then row.(revokedAt := Some(at)) else row
  }

  predicate OfSession(row: RefreshToken, realm: Id, sid: Id) {
    row.realm == realm && row.session == sid
  }

  function Swept(tokens: map<Id, RefreshToken>, realm: Id, sid: Id, at: Time): map<Id, RefreshToken> {
    map t | t in tokens :: if OfSession(tokens[t], realm, sid) then RevokedRow(tokens[t], at) else tokens[t]
  }

  /** `UserSessionRepository.revoke`: a write-once time, then every family. */
  function Revoke(db: Db, sid: Id, realm: Id, now: Time): (r: Db)
    ensures OnlyRows(db, r)
  {
    if sid in db.sessions && db.sessions[sid].realm == realm then
      var s := db.sessions[sid];
      var at := if s.revokedAt.Some? then s.revokedAt.value else now;
      db.(sessions := db.sessions[sid := s.(revokedAt := Some(at))],
          tokens := Swept(db.tokens, realm, sid, at))
    else db
  }

  // ---------------------------------------------------------------- tokens

  datatype Issuance = Issued(db: Db, response: TokenResponse) | NotIssued(error: Refusal)

  function Sign(db: Db, kid: Id, claims: Claims): Jwt
    requires kid in db.keys
  {
    Jwt(kid, true, db.keys[kid].publicPart, claims)
  }

  function AccessExpiry(db: Db, cfg: Config, s: UserSession, realm: Id, now: Time): Time
    requires realm in db.ids.realms
  {
    Min(s.maxExpires, After(now, db.ids.realms[realm].accessSeconds, cfg.accessSeconds))
  }

  function RefreshExpiry(db: Db, cfg: Config, s: UserSession, realm: Id, now: Time): Time
    requires realm in db.ids.realms
  {
    Min(s.idleExpires, Min(s.maxExpires, After(now, db.ids.realms[realm].refreshSeconds, cfg.refreshSeconds)))
  }

  /** The claims shared by the tokens of one response. */
  function CommonClaims(db: Db, realm: Id, client: Id, sid: Id, scope: Scope, typ: TokenType,
                        exp: nat, jti: Id, now: Time): Claims
    requires realm in db.ids.realms && client in db.ids.clients && sid in db.sessions
  {
    Claims(db.ids.realms[realm].issuer, db.sessions[sid].user, db.ids.clients[client].clientId,
           db.ids.clients[client].clientId, Floor(now), exp, Floor(db.sessions[sid].authTime),
           jti, typ, sid, scope, None, None)
  }

  predicate MayIssue(db: Db, realm: Id, client: Id, sid: Id, now: Time) {
    Authenticated(db, realm, client) && Eligible(db, sid, realm, now)
  }

  /** The refresh row and the response that `TokenService.issue` produces. It
      draws a family, then one `jti` for each of the three tokens. */
  function NewRefresh(db: Db, cfg: Config, realm: Id, client: Id, sid: Id, scope: Scope,
                      parent: Option<Id>, now: Time): RefreshToken
    requires MayIssue(db, realm, client, sid, now)
    requires |ActiveKeys(db.keys, realm)| == 1
    requires parent.Some? ==> parent.value in db.tokens
  {
    var s := db.sessions[sid];
    var expiry := RefreshExpiry(db, cfg, s, realm, now);
    var generation := if parent.Some? then db.tokens[parent.value].generation + 1 else 0;
    var family := if parent.Some? then db.tokens[parent.value].family else db.supply;
    var claims := CommonClaims(db, realm, client, sid, scope, Refresh, Floor(expiry), db.supply + 2, now);
    RefreshToken(Sign(db, Only(ActiveKeys(db.keys, realm)), claims.(generation := Some(generation))),
                 realm, client, s.user, sid, family, generation, scope, now, expiry, None, None, None)
  }

  /** Insert a row, then point its parent at it. */
  function AddRow(db: Db, t: Id, row: RefreshToken, parent: Option<Id>): (r: Db)
    requires parent.Some? ==> parent.value in db.tokens
    ensures OnlyRows(db, r)
  {
    var added := PutToken(db, t, row);
    if parent.Some? then PutToken(added, parent.value, db.tokens[parent.value].(replacedBy := Some(t)))
    else added
  }

  function IssueTokens(db: Db, cfg: Config, realm: Id, client: Id, sid: Id, scope: Scope,
                       nonce: Option<string>, parent: Option<Id>, now: Time): (r: Issuance)
    requires parent.Some? ==> parent.value in db.tokens
    ensures r.Issued? ==> OnlyRows(db, r.db)
  {
    if !MayIssue(db, realm, client, sid, now) then NotIssued(InvalidGrant)
    else if |ActiveKeys(db.keys, realm)| != 1 then NotIssued(Unavailable)
    else
      var kid := Only(ActiveKeys(db.keys, realm));
      var access := AccessExpiry(db, cfg, db.sessions[sid], realm, now);
      var row := NewRefresh(db, cfg, realm, client, sid, scope, parent, now);
      var after := Draw(AddRow(db, db.supply + 2, row, parent), 4);
      var bearer := CommonClaims(db, realm, client, sid, scope, Bearer, Floor(access), db.supply + 1, now);
      var id := bearer.(typ := ID, jti := db.supply + 3, nonce := nonce);
      Issued(after, TokenResponse(
        Sign(db, kid, bearer), row.hash,
        if "openid" in scope then Some(Sign(db, kid, id)) else None,
        Floor(access) - Floor(now), Floor(row.expiresAt) - Floor(now), sid, scope))
  }

  /** `dict.fromkeys`: the first occurrence of each word, in order. */
  function Distinct(words: Scope): (r: Scope)
    ensures forall w :: w in r <==> w in words
  {
    if words == [] then []
    else
      var rest := Distinct(words[..|words| - 1]);
      var last := words[|words| - 1];
      assert words == words[..|words| - 1] + [last];
      if last in rest then rest else rest + [last]
  }

  predicate Narrows(requested: Scope, granted: Scope) {
    forall w :: w in requested ==> w in granted
  }

  /** What a refresh that passed every check writes before issuing. */
  function ConsumeAndExtend(db: Db, cfg: Config, t: Id, now: Time): (r: Db)
    requires t in db.tokens && db.tokens[t].session in db.sessions
    requires db.sessions[db.tokens[t].session].realm in db.ids.realms
    ensures OnlyRows(db, r)
  {
    var row := db.tokens[t];
    PutSession(PutToken(db, t, row.(usedAt := Some(now))), row.session,
               Extended(db, cfg, db.sessions[row.session], now))
  }

  /** `_refresh_grant`: `TokenService.refresh`, then commit or rollback. */
  function RefreshGrant(db: Db, cfg: Config, realm: Id, client: Id, raw: Jwt,
                        scope: Option<Scope>, now: Time): (r: (Db, Reply))
    ensures OnlyRows(db, r.0)
  {
    var t, sid := raw.claims.jti, raw.claims.sid;
    if !Authenticated(db, realm, client) then (db, Refused(InvalidClient))
    else if !Decodes(db, raw, realm, db.ids.clients[client].clientId, Refresh, true, now)
         || !HasToken(db, raw, realm, client)
         || db.tokens[t].session != sid || !Eligible(db, sid, realm, now)
         || !RefreshMatches(db.tokens[t], raw.claims, sid, db.sessions[sid], now)
    then (db, Refused(InvalidGrant))
    else if db.tokens[t].usedAt.Some? then
      (LogEvent(Revoke(db, sid, realm, now),
                Event(realm, Some(client), Some(db.sessions[sid].user), Some(sid))),
       Refused(RefreshReuse))
    else
      var requested := if scope.Some? then scope.value else db.tokens[t].scope;
      if !Narrows(requested, db.tokens[t].scope) then (db, Refused(InvalidScope))
      else
        match IssueTokens(ConsumeAndExtend(db, cfg, t, now), cfg, realm, client, sid,
                          Distinct(requested), None, Some(t), now)
        case NotIssued(error) => (db, Refused(error))
        case Issued(after, response) =>
          (LogEvent(after, Event(realm, Some(client), Some(db.sessions[sid].user), Some(sid))),
           Tokens(response))
  }

  // ---------------------------------------------------------------- authorization codes

  function NewCode(db: Db, cfg: Config, client: Id, sid: Id, params: AuthParams, now: Time): Code
    requires sid in db.sessions && db.sessions[sid].realm in db.ids.realms
  {
    var s := db.sessions[sid];
    Code(s.realm, client, s.user, sid, params,
         After(now, db.ids.realms[s.realm].codeSeconds, cfg.codeSeconds), None)
  }

  predicate VerifierChar(c: char) {
    'A' <= c <= 'Z' || 'a' <= c <= 'z' || '0' <= c <= '9' || c in "._~-"
  }

  predicate VerifierShape(v: string) {
    43 <= |v| <= 128 && forall i | 0 <= i < |v| :: VerifierChar(v[i])
  }

  /** Section 4.6 of RFC 7636, for S256 only. */
  predicate ProofAccepted(params: AuthParams, policy: string, verifier: Option<string>) {
    if params.challenge.Some? then
      && params.challengeMethod == Some("S256")
      && verifier.Some? && VerifierShape(verifier.value)
      && params.challenge.value == S256Of(verifier.value)
    else params.challengeMethod.None? && policy == "optional" && verifier.None?
  }

  /** `AuthorizationService.consume` up to the conditional update. */
  predicate CodeAccepted(db: Db, realm: Id, client: Id, raw: Id, uri: string,
                         verifier: Option<string>, now: Time)
  {
    && raw in db.codes
    && var code := db.codes[raw];
    && code.realm == realm && code.client == client && code.params.redirectUri == uri
    && code.consumedAt.None? && now < code.expiresAt
    && EnabledClient(db, realm, client) && db.ids.clients[client].standardFlow
    && Eligible(db, code.session, realm, now) && db.sessions[code.session].user == code.user
    && ProofAccepted(code.params, db.ids.clients[client].pkcePolicy, verifier)
  }

  /** Code exchange: claim the code once and issue, or roll everything back. */
  function ExchangeGrant(db: Db, cfg: Config, realm: Id, client: Id, raw: Id, uri: string,
                         verifier: Option<string>, now: Time): (r: (Db, Reply))
    ensures OnlyRows(db, r.0)
  {
    if !Authenticated(db, realm, client) then (db, Refused(InvalidClient))
    else if !CodeAccepted(db, realm, client, raw, uri, verifier, now) then (db, Refused(InvalidGrant))
    else
      var code := db.codes[raw];
      match IssueTokens(PutCode(db, raw, code.(consumedAt := Some(now))), cfg, realm, client,
                        code.session, code.params.scope, code.params.nonce, None, now)
      case NotIssued(error) => (db, Refused(error))
      case Issued(after, response) =>
        (LogEvent(after, Event(realm, Some(client), Some(code.user), Some(code.session))),
         Tokens(response))
  }

  /** A password grant after its credentials were checked. */
  function PasswordGrant(db: Db, cfg: Config, realm: Id, client: Id, user: Id, scope: Scope,
                         now: Time): (r: (Db, Reply))
    ensures OnlyRows(db, r.0)
  {
    if !MayCreateSession(db, realm, client, user) then (db, Refused(InvalidClient))
    else
      var sid := db.supply;
      var created := PutSession(Draw(db, 1), sid, NewSession(db, cfg, realm, client, user, now));
      match IssueTokens(created, cfg, realm, client, sid, Distinct(scope), None, None, now)
      case NotIssued(error) => (db, Refused(error))
      case Issued(after, response) =>
        (LogEvent(after, Event(realm, Some(client), Some(user), Some(sid))), Tokens(response))
  }

  // ---------------------------------------------------------------- browser login

  predicate RequestAllowed(db: Db, realm: Id, client: Id, params: AuthParams) {
    && Authenticated(db, realm, client) && db.ids.clients[client].standardFlow
    && db.ids.clients[client].pkcePolicy in {"S256", "optional"}
    && ((db.ids.clients[client].pkcePolicy == "S256" || params.challenge.Some? || params.challengeMethod.Some?)
        ==> (params.challengeMethod == Some("S256") && params.challenge.Some?))
  }

  function NewAuth(db: Db, realm: Id, client: Id, params: AuthParams, user: Option<Id>, now: Time): AuthSession
    requires realm in db.ids.realms
  {
    AuthSession(realm, client, db.ids.realms[realm].resetFlow, user, params, user.Some?, now + 1800 * SECOND)
  }

  /** A browser session is extended and an authentication session for its user added. */
  function Reused(db: Db, cfg: Config, realm: Id, client: Id, sid: Id, params: AuthParams, now: Time): (r: Db)
    requires sid in db.sessions && db.sessions[sid].realm in db.ids.realms && realm in db.ids.realms
    ensures OnlyRows(db, r)
  {
    var touched := PutSession(Draw(db, 2), sid, Extended(db, cfg, db.sessions[sid], now));
    PutAuth(touched, db.supply, NewAuth(touched, realm, client, params, Some(db.sessions[sid].user), now))
  }

  /** `AuthorizationService.issue` adds the code of a session; the event follows. */
  function WithCode(db: Db, cfg: Config, client: Id, sid: Id, params: AuthParams, c: Id, now: Time): (r: Db)
    requires sid in db.sessions && db.sessions[sid].realm in db.ids.realms
    ensures OnlyRows(db, r)
  {
    var s := db.sessions[sid];
    LogEvent(PutCode(db, c, NewCode(db, cfg, client, sid, params, now)),
             Event(s.realm, Some(client), Some(s.user), Some(sid)))
  }

  /** `authorize`: a browser session that is still eligible gets a code at once,
      any other request a login page. */
  function Authorize(db: Db, cfg: Config, realm: Id, client: Id, sid: Option<Id>, params: AuthParams,
                     now: Time): (r: (Db, Reply))
    ensures OnlyRows(db, r.0)
  {
    if !RequestAllowed(db, realm, client, params) then (db, Refused(BadRequest))
    else if sid.Some? && Eligible(db, sid.value, realm, now) then
      var auth := Reused(db, cfg, realm, client, sid.value, params, now);
      // `issue` asks for eligibility again, after the idle time was replaced.
      if !Eligible(auth, sid.value, realm, now) then (db, Refused(AccessDenied))
      else (WithCode(auth, cfg, client, sid.value, params, db.supply + 1, now),
            CodeIssued(db.supply + 1, sid.value))
    else
      (PutAuth(Draw(db, 1), db.supply, NewAuth(db, realm, client, params, None, now)), LoginPage(db.supply))
  }

  predicate MayComplete(db: Db, tab: Id, user: Id, now: Time) {
    && tab in db.authSessions
    && var auth := db.authSessions[tab];
    && now < auth.expiresAt && !auth.authenticated
    && (auth.selectedUser.Some? ==> auth.selectedUser.value == user)
    && RequestAllowed(db, auth.realm, auth.client, auth.params)
    && MayCreateSession(db, auth.realm, auth.client, user)
  }

  /** `complete_authentication` for a user who has just proved who they are. */
  function CompleteLogin(db: Db, cfg: Config, tab: Id, user: Id, now: Time): (r: (Db, Reply))
    ensures OnlyRows(db, r.0)
  {
    if !MayComplete(db, tab, user, now) then (db, Refused(BadRequest))
    else
      var auth := db.authSessions[tab];
      var sid := db.supply;
      var session := NewSession(db, cfg, auth.realm, auth.client, user, now);
      var created := PutSession(Draw(db, 2), sid, session);
      if !Eligible(created, sid, auth.realm, now) then (db, Refused(AccessDenied))
      else
        var marked := PutAuth(created, tab, auth.(selectedUser := Some(user), authenticated := true));
        (WithCode(marked, cfg, auth.client, sid, auth.params, sid + 1, now), CodeIssued(sid + 1, sid))
  }

  // ---------------------------------------------------------------- logout

  function LogoutByHint(db: Db, realm: Id, raw: Jwt, audience: Option<string>, now: Time): (r: (Db, Reply))
    ensures OnlyRows(db, r.0)
  {
    var aud := if audience.Some? then audience.value else raw.claims.aud;
    if realm !in db.ids.realms || !db.ids.realms[realm].enabled then (db, Refused(NotFound))
    else if !HintVerifies(db, raw, realm, aud, now) then (db, Refused(InvalidToken))
    else
      var sid := raw.claims.sid;
      (LogEvent(Revoke(db, sid, realm, now),
                Event(realm, ClientNamed(db, realm, raw.claims.azp), Some(db.sessions[sid].user), Some(sid))),
       Done)
  }

  function LogoutByRefresh(db: Db, realm: Id, client: Id, raw: Jwt, now: Time): (r: (Db, Reply))
    ensures OnlyRows(db, r.0)
  {
    if !Authenticated(db, realm, client) then (db, Refused(InvalidClient))
    else if !Verifies(db, raw, realm, db.ids.clients[client].clientId, Refresh, now)
    then (db, Refused(InvalidGrant))
    else
      var sid := raw.claims.sid;
      (LogEvent(Revoke(db, sid, realm, now),
                Event(realm, Some(client), Some(db.sessions[sid].user), Some(sid))),
       Done)
  }

  // ---------------------------------------------------------------- signing keys

  /** `ensure_active_key`: an active key is kept, a missing one generated. */
  function EnsureKey(db: Db, realm: Id): (r: (Db, Reply))
    ensures OnlyKeys(db, r.0)
  {
    if realm !in db.ids.realms then (db, Refused(NotFound))
    else if |ActiveKeys(db.keys, realm)| > 1 then (db, Refused(Unavailable))
    else if |ActiveKeys(db.keys, realm)| == 1 then (db, Done)
    else (PutKey(Draw(db, 2), db.supply, Key(realm, true, db.supply + 1, true, None)), Done)
  }

  function Deactivated(keys: map<Id, Key>, realm: Id, now: Time): (r: map<Id, Key>)
    ensures forall k | k in keys :: k in r && KeyForward(keys[k], r[k])
  {
    map k | k in keys ::
      if IsActiveKey(keys[k], realm) then keys[k].(active := false, deactivatedAt := Some(now)) else keys[k]
  }

  function RotateKey(db: Db, realm: Id, now: Time): (r: (Db, Reply))
    ensures OnlyKeys(db, r.0)
  {
    if realm !in db.ids.realms || !db.ids.realms[realm].enabled then (db, Refused(NotFound))
    else
      var replacement := Key(realm, true, db.supply + 1, true, None);
      (db.(keys := Deactivated(db.keys, realm, now)[db.supply := replacement], supply := db.supply + 2), Done)
  }

  // ---------------------------------------------------------------- login throttle

  function BucketOf(db: Db, b: BucketKey): Option<Bucket> {
    if b in db.buckets then Some(db.buckets[b]) else None
  }

  function CountFailure(db: Db, cfg: Config, b: BucketKey, now: Time): (r: (Db, Reply))
    ensures OnlyBuckets(db, r.0)
  {
    if b.realm !in db.ids.realms then (db, Refused(NotFound))
    else (db.(buckets := db.buckets[b := Throttle.RecordFailure(BucketOf(db, b), cfg, now)]), Done)
  }

  function AskBlocked(db: Db, b: BucketKey, now: Time): (r: (Db, Reply))
    ensures OnlyBuckets(db, r.0)
  {
    (db, Answer(Throttle.IsBlocked(BucketOf(db, b), now)))
  }

  function ClearFailures(db: Db, b: BucketKey): (r: (Db, Reply))
    ensures OnlyBuckets(db, r.0)
  {
    (db.(buckets := db.buckets - {b}), Done)
  }

  // ---------------------------------------------------------------- identities

  /** Administrative changes. Updates keep the name, and so the issuer, and the
      realm of a row. */
  datatype Change =
    | CreateRealm(realmRow: Realm)
    | CreateClient(clientRow: Client)
    | CreateUser(userRow: User)
    | UpdateRealm(realm: Id, realmRow: Realm)
    | UpdateClient(client: Id, clientRow: Client)
    | UpdateUser(user: Id, enabled: bool)

  predicate ClientIdTaken(ids: Identities, row: Client) {
    exists c | c in ids.clients :: ids.clients[c].realm == row.realm && ids.clients[c].clientId == row.clientId
  }

  function Verdict(ids: Identities, change: Change): Reply {
    match change
    case CreateRealm(row) => Done
    case CreateClient(row) =>
      if row.realm !in ids.realms then Refused(NotFound)
      else if ClientIdTaken(ids, row) then Refused(Conflict)
      else Done
    case CreateUser(row) => if row.realm in ids.realms then Done else Refused(NotFound)
    case UpdateRealm(realm, _) => if realm in ids.realms then Done else Refused(NotFound)
    case UpdateClient(client, _) => if client in ids.clients then Done else Refused(NotFound)
    case UpdateUser(user, _) => if user in ids.users then Done else Refused(NotFound)
  }

  function Changed(ids: Identities, change: Change, next: Id): Identities
    requires Verdict(ids, change) == Done
  {
    match change
    case CreateRealm(row) => ids.(realms := ids.realms[next := row.(resetFlow := None)])
    case CreateClient(row) => ids.(clients := ids.clients[next := row])
    case CreateUser(row) => ids.(users := ids.users[next := row])
    case UpdateRealm(realm, row) =>
      var was := ids.realms[realm];
      ids.(realms := ids.realms[realm := row.(issuer := was.issuer, resetFlow := was.resetFlow)])
    case UpdateClient(client, row) =>
      var was := ids.clients[client];
      ids.(clients := ids.clients[client := row.(realm := was.realm, clientId := was.clientId)])
    case UpdateUser(user, enabled) =>
      ids.(users := ids.users[user := ids.users[user].(enabled := enabled)])
  }

  function Administer(db: Db, change: Change): (Db, Reply) {
    if Verdict(db.ids, change) == Done
    then (Draw(db, 1).(ids := Changed(db.ids, change, db.supply)), Done)
    else (db, Verdict(db.ids, change))
  }
}

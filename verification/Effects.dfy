/** What each request writes, column by column: the tables after it, with every column
    that is not named here left as it was. */
module Effects {
  import opened Prelude
  import opened Tables
  import opened Protocol
  import opened Invariants
  import opened Retention
  import opened Removal
  import opened Server
  import opened Finality
  import opened RoundTrips
  import opened Replies
  import Throttle

  /** A lifetime from now on in whole seconds, but never past `cap`. */
  function Capped(cap: Time, now: Time, own: Option<nat>, default: nat): Time {
    var end := now + Lifetime(own, default) * SECOND;
    if end <= cap then end else cap
  }

  lemma CappedIs(cap: Time, now: Time, own: Option<nat>, default: nat)
    ensures Capped(cap, now, own, default) == Min(cap, After(now, own, default))
  {}

  // ---------------------------------------------------------------- issuing

  /** The claims that issuing puts into all three tokens of a response. */
  predicate Speaks(raw: Jwt, typ: TokenType, exp: Time, now: Time, supply: Id) {
    && raw.claims.typ == typ && raw.claims.exp == exp / SECOND && raw.claims.iat == now / SECOND
    && supply <= raw.claims.jti
  }

  /** Issuing adds one row, points its parent at it, and touches nothing else. */
  lemma IssueEffect(db: Db, cfg: Config, realm: Id, client: Id, sid: Id, scope: Scope, nonce: Option<string>,
                    parent: Option<Id>, now: Time)
    requires parent.Some? ==> parent.value in db.tokens && parent.value < db.supply
    requires IssueTokens(db, cfg, realm, client, sid, scope, nonce, parent, now).Issued?
    ensures sid in db.sessions && realm in db.ids.realms
    ensures
      var r, s, x := IssueTokens(db, cfg, realm, client, sid, scope, nonce, parent, now), db.sessions[sid],
                     db.ids.realms[realm];
      var t, out := r.response.refresh.claims.jti, r.response;
      var row := RefreshToken(out.refresh, realm, client, s.user, sid,
                              if parent.Some? then db.tokens[parent.value].family else db.supply,
                              if parent.Some? then db.tokens[parent.value].generation + 1 else 0,
                              scope, now,
                              Capped(if s.idleExpires <= s.maxExpires then s.idleExpires else s.maxExpires, now,
                                     x.refreshSeconds, cfg.refreshSeconds), None, None, None);
      && r.db == db.(tokens := r.db.tokens, supply := r.db.supply)
      && t < r.db.supply && out.access.claims.jti < r.db.supply && db.supply < r.db.supply
      && r.db.tokens == (if parent.Some?
                         then db.tokens[parent.value := db.tokens[parent.value].(replacedBy := Some(t))]
                         else db.tokens)[t := row]
      && Speaks(out.refresh, Refresh, row.expiresAt, now, db.supply)
      && out.refresh.claims.generation == Some(row.generation)
      && Speaks(out.access, Bearer, Capped(s.maxExpires, now, x.accessSeconds, cfg.accessSeconds), now, db.supply)
      && out.access.claims.generation == None
      && (out.idToken.Some? ==>
            && out.idToken.value.claims.generation == None && out.idToken.value.claims.jti != out.access.claims.jti
            && out.idToken.value.claims.jti != t && out.idToken.value.claims.jti < r.db.supply
            && Speaks(out.idToken.value, ID, Capped(s.maxExpires, now, x.accessSeconds, cfg.accessSeconds), now,
                      db.supply))
      && out.expiresIn == out.access.claims.exp - now / SECOND
      && out.refreshExpiresIn == out.refresh.claims.exp - now / SECOND
  {
    var s, x := db.sessions[sid], db.ids.realms[realm];
    CappedIs(s.maxExpires, now, x.accessSeconds, cfg.accessSeconds);
    CappedIs(Min(s.idleExpires, s.maxExpires), now, x.refreshSeconds, cfg.refreshSeconds);
    hide After, Capped, Eligible, ActiveKeys;
  }

  // ---------------------------------------------------------------- refresh

  /** A session used now: its last use and its idle expiry, capped by its maximum. */
  function Touched(x: Realm, cfg: Config, s: UserSession, now: Time): UserSession {
    UserSession(s.realm, s.client, s.user, s.authTime, now,
                Capped(s.maxExpires, now, x.idleSeconds, cfg.idleSeconds), s.maxExpires, s.revokedAt)
  }

  lemma TouchedIs(db: Db, cfg: Config, s: UserSession, now: Time)
    requires s.realm in db.ids.realms
    ensures Touched(db.ids.realms[s.realm], cfg, s, now) == Extended(db, cfg, s, now)
  {
    CappedIs(s.maxExpires, now, db.ids.realms[s.realm].idleSeconds, cfg.idleSeconds);
  }

  /** A successful refresh uses the token, touches its session, adds the successor and
      links it, and records one event. */
  lemma RefreshEffect(db: Db, cfg: Config, realm: Id, client: Id, raw: Jwt, narrowed: Option<Scope>, now: Time)
    returns (e: Id)
    requires raw.claims.jti < db.supply && RefreshGrant(db, cfg, realm, client, raw, narrowed, now).1.Tokens?
    ensures var t, sid := raw.claims.jti, raw.claims.sid;
            t in db.tokens && sid in db.sessions && realm in db.ids.realms && db.sessions[sid].realm == realm
    ensures
      var t, sid := raw.claims.jti, raw.claims.sid;
      var (after, reply) := RefreshGrant(db, cfg, realm, client, raw, narrowed, now);
      var s, next := Touched(db.ids.realms[realm], cfg, db.sessions[sid], now), reply.response.refresh.claims.jti;
      && after == db.(sessions := db.sessions[sid := s], tokens := after.tokens, events := after.events,
                      supply := after.supply)
      && db.supply <= next < after.supply && db.supply <= e < after.supply
      && after.tokens == db.tokens[t := db.tokens[t].(usedAt := Some(now), replacedBy := Some(next))]
                                  [next := after.tokens[next]]
      && after.tokens[next] == RefreshToken(
           reply.response.refresh, realm, client, s.user, sid, db.tokens[t].family, db.tokens[t].generation + 1,
           reply.response.scope, now,
           Capped(s.idleExpires, now, db.ids.realms[realm].refreshSeconds, cfg.refreshSeconds), None, None, None)
      && after.events == db.events[e := Event(realm, Some(client), Some(s.user), Some(sid))]
      && Speaks(reply.response.refresh, Refresh, after.tokens[next].expiresAt, now, db.supply)
      && Speaks(reply.response.access, Bearer,
                Capped(s.maxExpires, now, db.ids.realms[realm].accessSeconds, cfg.accessSeconds), now, db.supply)
  {
    var t, sid := raw.claims.jti, raw.claims.sid;
    RefreshSteps(db, cfg, realm, client, raw, narrowed, now);
    var requested := if narrowed.Some? then narrowed.value else db.tokens[t].scope;
    var ready := ConsumeAndExtend(db, cfg, t, now);
    TouchedIs(db, cfg, db.sessions[sid], now);
    ReadyRows(db, cfg, t, now);
    IssueEffect(ready, cfg, realm, client, sid, Distinct(requested), None, Some(t), now);
    ResponseIsSigned(ready, cfg, realm, client, sid, Distinct(requested), None, Some(t), now);
    hide RefreshGrant, IssueTokens, ConsumeAndExtend, Touched, Extended, Capped, Distinct, SignedFor, OnlyRows;
    e := IssueTokens(ready, cfg, realm, client, sid, Distinct(requested), None, Some(t), now).db.supply;
  }

  lemma ReadyRows(db: Db, cfg: Config, t: Id, now: Time)
    requires t in db.tokens && db.tokens[t].session in db.sessions
    requires db.sessions[db.tokens[t].session].realm in db.ids.realms
    ensures var sid := db.tokens[t].session;
            ConsumeAndExtend(db, cfg, t, now)
            == db.(sessions := db.sessions[sid := Extended(db, cfg, db.sessions[sid], now)],
                   tokens := db.tokens[t := db.tokens[t].(usedAt := Some(now))])
  {
    hide Extended;
  }

  lemma RefreshSteps(db: Db, cfg: Config, realm: Id, client: Id, raw: Jwt, narrowed: Option<Scope>, now: Time)
    requires RefreshGrant(db, cfg, realm, client, raw, narrowed, now).1.Tokens?
    ensures var t, sid := raw.claims.jti, raw.claims.sid;
            && t in db.tokens && sid in db.sessions && db.tokens[t].session == sid
            && realm in db.ids.realms && db.sessions[sid].realm == realm
            && t in ConsumeAndExtend(db, cfg, t, now).tokens
    ensures var t, sid := raw.claims.jti, raw.claims.sid;
            var requested := if narrowed.Some? then narrowed.value else db.tokens[t].scope;
            var issued := IssueTokens(ConsumeAndExtend(db, cfg, t, now), cfg, realm, client, sid, Distinct(requested),
                                      None, Some(t), now);
            && issued.Issued?
            && RefreshGrant(db, cfg, realm, client, raw, narrowed, now)
               == (LogEvent(issued.db, Event(realm, Some(client), Some(db.sessions[sid].user), Some(sid))),
                   Tokens(issued.response))
  {
    hide Decodes, RefreshMatches, Live, IssueTokens, Distinct;
  }

  /** The tables after the revocation of a session at `at`: its time is written once, its
      unrevoked tokens get the same time. */
  predicate Revoked(a: Db, b: Db, realm: Id, sid: Id, now: Time)
    requires sid in a.sessions
  {
    var at := match a.sessions[sid].revokedAt case Some(before) => before case None => now;
    && b == a.(sessions := a.sessions[sid := a.sessions[sid].(revokedAt := Some(at))], tokens := b.tokens,
               events := b.events, supply := b.supply)
    && b.tokens.Keys == a.tokens.Keys
    && forall t | t in a.tokens ::
         b.tokens[t] == if a.tokens[t].session == sid && a.tokens[t].realm == realm && a.tokens[t].revokedAt == None
                        then a.tokens[t].(revokedAt := Some(at)) else a.tokens[t]
  }

  lemma RevokeIs(db: Db, sid: Id, realm: Id, now: Time)
    requires sid in db.sessions && db.sessions[sid].realm == realm
    ensures Revoked(db, Revoke(db, sid, realm, now), realm, sid, now)
    ensures Revoke(db, sid, realm, now).events == db.events && Revoke(db, sid, realm, now).supply == db.supply
  {}

  /** A reused refresh token revokes its session, both logouts do, and each records one
      event of the session's user. */
  lemma ReuseEffect(db: Db, cfg: Config, realm: Id, client: Id, raw: Jwt, narrowed: Option<Scope>, now: Time)
    requires RefreshGrant(db, cfg, realm, client, raw, narrowed, now).1 == Refused(RefreshReuse)
    ensures var sid, after := raw.claims.sid, RefreshGrant(db, cfg, realm, client, raw, narrowed, now).0;
            && sid in db.sessions && Revoked(db, after, realm, sid, now) && after.supply == db.supply + 1
            && after.events
               == db.events[db.supply := Event(realm, Some(client), Some(db.sessions[sid].user), Some(sid))]
  {
    var sid := raw.claims.sid;
    ReuseSteps(db, cfg, realm, client, raw, narrowed, now);
    RevokeIs(db, sid, realm, now);
    hide RefreshGrant, Revoke;
  }

  lemma ReuseSteps(db: Db, cfg: Config, realm: Id, client: Id, raw: Jwt, narrowed: Option<Scope>, now: Time)
    requires RefreshGrant(db, cfg, realm, client, raw, narrowed, now).1 == Refused(RefreshReuse)
    ensures var sid := raw.claims.sid;
            && sid in db.sessions && db.sessions[sid].realm == realm
            && RefreshGrant(db, cfg, realm, client, raw, narrowed, now).0
               == LogEvent(Revoke(db, sid, realm, now),
                           Event(realm, Some(client), Some(db.sessions[sid].user), Some(sid)))
  {
    hide Decodes, RefreshMatches, Live, Revoke, Distinct, ConsumeAndExtend, NewRefresh, CommonClaims, AccessExpiry,
         ActiveKeys, AddRow, MayIssue, OnlyRows;
  }

  lemma RefreshLogoutEffect(db: Db, realm: Id, client: Id, raw: Jwt, now: Time)
    requires LogoutByRefresh(db, realm, client, raw, now).1 == Done
    ensures var sid, after := raw.claims.sid, LogoutByRefresh(db, realm, client, raw, now).0;
            && sid in db.sessions && Revoked(db, after, realm, sid, now) && after.supply == db.supply + 1
            && after.events
               == db.events[db.supply := Event(realm, Some(client), Some(db.sessions[sid].user), Some(sid))]
  {
    var sid := raw.claims.sid;
    hide Decodes, EnabledAudience, UnusedRowMatches, Live, Revoke, Revoked;
    RevokeIs(db, sid, realm, now);
    LoggedRevocation(db, sid, realm, Event(realm, Some(client), Some(db.sessions[sid].user), Some(sid)), now);
  }

  lemma LoggedRevocation(db: Db, sid: Id, realm: Id, row: Event, now: Time)
    requires sid in db.sessions && Revoked(db, Revoke(db, sid, realm, now), realm, sid, now)
    requires Revoke(db, sid, realm, now).events == db.events && Revoke(db, sid, realm, now).supply == db.supply
    ensures var after := LogEvent(Revoke(db, sid, realm, now), row);
            && Revoked(db, after, realm, sid, now) && after.events == db.events[db.supply := row]
            && after.supply == db.supply + 1
  {
    hide Revoke;
  }

  predicate Named(ids: Identities, realm: Id, name: string, c: Id) {
    c in ids.clients && ids.clients[c].realm == realm && ids.clients[c].clientId == name
  }

  /** The event of a logout by hint names the client of the hint if the realm has exactly
      one client of that name. */
  lemma HintLogoutEffect(db: Db, realm: Id, raw: Jwt, audience: Option<string>, now: Time) returns (who: Option<Id>)
    requires LogoutByHint(db, realm, raw, audience, now).1 == Done
    ensures var sid, after := raw.claims.sid, LogoutByHint(db, realm, raw, audience, now).0;
            && sid in db.sessions && Revoked(db, after, realm, sid, now) && after.supply == db.supply + 1
            && after.events == db.events[db.supply := Event(realm, who, Some(db.sessions[sid].user), Some(sid))]
    ensures forall c: Id :: who == Some(c) <==>
      Named(db.ids, realm, raw.claims.azp, c) && forall d: Id | Named(db.ids, realm, raw.claims.azp, d) :: d == c
  {
    var sid := raw.claims.sid;
    who := ClientNamed(db, realm, raw.claims.azp);
    hide Decodes, EnabledAudience, Expired, Revoke, Revoked, ClientNamed, Named;
    forall c: Id
      ensures who == Some(c) <==>
        Named(db.ids, realm, raw.claims.azp, c) && forall d: Id | Named(db.ids, realm, raw.claims.azp, d) :: d == c
    {
      OnlyNamed(db, realm, raw.claims.azp, c);
    }
    RevokeIs(db, sid, realm, now);
    LoggedRevocation(db, sid, realm, Event(realm, who, Some(db.sessions[sid].user), Some(sid)), now);
  }

  lemma OnlyNamed(db: Db, realm: Id, name: string, c: Id)
    ensures ClientNamed(db, realm, name) == Some(c) <==>
      Named(db.ids, realm, name, c) && forall d: Id | Named(db.ids, realm, name, d) :: d == c
  {
    var found := set x | x in db.ids.clients && db.ids.clients[x].realm == realm && db.ids.clients[x].clientId == name;
    assert forall x :: x in found <==> Named(db.ids, realm, name, x);
    if Named(db.ids, realm, name, c) && forall d: Id | Named(db.ids, realm, name, d) :: d == c {
      assert found == {c};
    } else if ClientNamed(db, realm, name) == Some(c) {
      assert found == {c};
      assert c in found;
    }
  }

  // ---------------------------------------------------------------- codes

  /** A successful exchange consumes the code, adds a first token and records one event;
      sessions stay as they are. */
  lemma ExchangeEffect(db: Db, cfg: Config, realm: Id, client: Id, c: Id, uri: string, verifier: Option<string>,
                       now: Time) returns (e: Id)
    requires ExchangeGrant(db, cfg, realm, client, c, uri, verifier, now).1.Tokens?
    ensures c in db.codes && db.codes[c].session in db.sessions && realm in db.ids.realms
    ensures
      var (after, reply) := ExchangeGrant(db, cfg, realm, client, c, uri, verifier, now);
      var code, next := db.codes[c], reply.response.refresh.claims.jti;
      var s := db.sessions[code.session];
      && after == db.(codes := db.codes[c := code.(consumedAt := Some(now))], tokens := after.tokens,
                      events := after.events, supply := after.supply)
      && db.supply <= next < after.supply && db.supply <= e < after.supply
      && after.tokens == db.tokens[next := after.tokens[next]]
      && after.tokens[next] == RefreshToken(
           reply.response.refresh, realm, client, code.user, code.session, after.tokens[next].family, 0,
           code.params.scope, now,
           Capped(if s.idleExpires <= s.maxExpires then s.idleExpires else s.maxExpires, now,
                  db.ids.realms[realm].refreshSeconds, cfg.refreshSeconds), None, None, None)
      && db.supply <= after.tokens[next].family
      && after.events == db.events[e := Event(realm, Some(client), Some(code.user), Some(code.session))]
      && Speaks(reply.response.refresh, Refresh, after.tokens[next].expiresAt, now, db.supply)
      && Speaks(reply.response.access, Bearer,
                Capped(s.maxExpires, now, db.ids.realms[realm].accessSeconds, cfg.accessSeconds), now, db.supply)
  {
    var code := db.codes[c];
    var spent := PutCode(db, c, code.(consumedAt := Some(now)));
    ExchangeSteps(db, cfg, realm, client, c, uri, verifier, now);
    IssueEffect(spent, cfg, realm, client, code.session, code.params.scope, code.params.nonce, None, now);
    hide ExchangeGrant, IssueTokens, Capped, OnlyRows;
    e := IssueTokens(spent, cfg, realm, client, code.session, code.params.scope, code.params.nonce, None,
                     now).db.supply;
  }

  lemma ExchangeSteps(db: Db, cfg: Config, realm: Id, client: Id, c: Id, uri: string, verifier: Option<string>,
                      now: Time)
    requires ExchangeGrant(db, cfg, realm, client, c, uri, verifier, now).1.Tokens?
    ensures c in db.codes && db.codes[c].session in db.sessions && realm in db.ids.realms
    ensures db.sessions[db.codes[c].session].user == db.codes[c].user
    ensures var code := db.codes[c];
            var issued := IssueTokens(PutCode(db, c, code.(consumedAt := Some(now))), cfg, realm, client, code.session,
                                      code.params.scope, code.params.nonce, None, now);
            && issued.Issued?
            && ExchangeGrant(db, cfg, realm, client, c, uri, verifier, now)
               == (LogEvent(issued.db, Event(realm, Some(client), Some(code.user), Some(code.session))),
                   Tokens(issued.response))
  {
    hide IssueTokens, ProofAccepted, Live;
  }

  // ---------------------------------------------------------------- new sessions

  /** A session that begins now. */
  function Begun(x: Realm, cfg: Config, realm: Id, client: Id, user: Id, now: Time): UserSession {
    var maximum := now + Lifetime(x.maxSeconds, cfg.maxSeconds) * SECOND;
    UserSession(realm, client, user, now, now, Capped(maximum, now, x.idleSeconds, cfg.idleSeconds), maximum, None)
  }

  lemma BegunIs(db: Db, cfg: Config, realm: Id, client: Id, user: Id, now: Time)
    requires realm in db.ids.realms
    ensures Begun(db.ids.realms[realm], cfg, realm, client, user, now)
            == NewSession(db, cfg, realm, client, user, now)
  {
    var x := db.ids.realms[realm];
    CappedIs(Begun(x, cfg, realm, client, user, now).maxExpires, now, x.idleSeconds, cfg.idleSeconds);
  }

  /** A successful password grant begins a session of the user, adds a first token of it
      with the words asked for, each once, and records one event. */
  lemma PasswordEffect(db: Db, cfg: Config, realm: Id, client: Id, user: Id, scope: Scope, now: Time) returns (e: Id)
    requires PasswordGrant(db, cfg, realm, client, user, scope, now).1.Tokens?
    ensures realm in db.ids.realms && client in db.ids.clients
    ensures
      var (after, reply) := PasswordGrant(db, cfg, realm, client, user, scope, now);
      var r, next := reply.response, reply.response.refresh.claims.jti;
      var s := Begun(db.ids.realms[realm], cfg, realm, client, user, now);
      && after == db.(sessions := db.sessions[db.supply := s], tokens := after.tokens, events := after.events,
                      supply := after.supply)
      && db.supply < next < after.supply && db.supply < e < after.supply
      && after.tokens == db.tokens[next := after.tokens[next]]
      && after.tokens[next] == RefreshToken(
           r.refresh, realm, client, user, db.supply, after.tokens[next].family, 0, r.scope, now,
           Capped(s.idleExpires, now, db.ids.realms[realm].refreshSeconds, cfg.refreshSeconds), None, None, None)
      && db.supply < after.tokens[next].family
      && after.events == db.events[e := Event(realm, Some(client), Some(user), Some(db.supply))]
      && Speaks(r.refresh, Refresh, after.tokens[next].expiresAt, now, db.supply)
      && Speaks(r.access, Bearer,
                Capped(s.maxExpires, now, db.ids.realms[realm].accessSeconds, cfg.accessSeconds), now, db.supply)
      && r.session == r.access.claims.sid == db.supply && r.access.claims.sub == user
      && r.access.claims.aud == db.ids.clients[client].clientId && r.access.claims.authTime == now / SECOND
      && (forall w :: w in r.scope <==> w in scope)
      && (forall i, j | 0 <= i < j < |r.scope| :: r.scope[i] != r.scope[j])
      && (r.idToken.Some? <==> "openid" in scope) && (r.idToken.Some? ==> r.idToken.value.claims.nonce == None)
  {
    var sid := db.supply;
    var session := NewSession(db, cfg, realm, client, user, now);
    var created := PutSession(Draw(db, 1), sid, session);
    BegunIs(db, cfg, realm, client, user, now);
    PasswordSteps(db, cfg, realm, client, user, scope, now);
    NoRepetition(scope);
    IssueEffect(created, cfg, realm, client, sid, Distinct(scope), None, None, now);
    ResponseIsSigned(created, cfg, realm, client, sid, Distinct(scope), None, None, now);
    var issued := IssueTokens(created, cfg, realm, client, sid, Distinct(scope), None, None, now);
    SignedFacts(created, issued.response.access, realm, client, sid, Bearer, now);
    hide PasswordGrant, IssueTokens, Capped, OnlyRows, NewSession, Distinct, SignedFor;
    CapTwice(db.ids.realms[realm], cfg, realm, client, user, now);
    e := issued.db.supply;
  }

  lemma CapTwice(x: Realm, cfg: Config, realm: Id, client: Id, user: Id, now: Time)
    ensures var s := Begun(x, cfg, realm, client, user, now); s.idleExpires <= s.maxExpires
  {}

  lemma SignedFacts(db: Db, raw: Jwt, realm: Id, client: Id, sid: Id, typ: TokenType, now: Time)
    requires SignedFor(db, raw, realm, client, sid, typ, now)
    ensures client in db.ids.clients && sid in db.sessions
    ensures raw.claims.sub == db.sessions[sid].user && raw.claims.aud == db.ids.clients[client].clientId
    ensures raw.claims.sid == sid && raw.claims.authTime == db.sessions[sid].authTime / SECOND
  {
    hide Live;
  }

  lemma PasswordSteps(db: Db, cfg: Config, realm: Id, client: Id, user: Id, scope: Scope, now: Time)
    requires PasswordGrant(db, cfg, realm, client, user, scope, now).1.Tokens?
    ensures realm in db.ids.realms && client in db.ids.clients
    ensures var created := PutSession(Draw(db, 1), db.supply, NewSession(db, cfg, realm, client, user, now));
            var issued := IssueTokens(created, cfg, realm, client, db.supply, Distinct(scope), None, None, now);
            && issued.Issued?
            && PasswordGrant(db, cfg, realm, client, user, scope, now)
               == (LogEvent(issued.db, Event(realm, Some(client), Some(user), Some(db.supply))),
                   Tokens(issued.response))
  {
    hide IssueTokens, Distinct, NewSession;
  }

  /** A code for a session, as an authorization leaves it. */
  function CodeFor(x: Realm, cfg: Config, s: UserSession, sid: Id, client: Id, params: AuthParams, now: Time): Code {
    Code(s.realm, client, s.user, sid, params, now + Lifetime(x.codeSeconds, cfg.codeSeconds) * SECOND, None)
  }

  /** Half an hour, and the reset flow that the realm has at that moment. */
  function Tab(x: Realm, realm: Id, client: Id, params: AuthParams, user: Option<Id>, now: Time): AuthSession {
    AuthSession(realm, client, x.resetFlow, user, params, user != None, now + 30 * 60 * SECOND)
  }

  /** A reused browser session is touched; a finished authentication session of its user,
      a code and an event are added. */
  lemma ReuseSessionEffect(db: Db, cfg: Config, realm: Id, client: Id, cookie: Id, params: AuthParams, now: Time)
    requires Authorize(db, cfg, realm, client, Some(cookie), params, now).1.CodeIssued?
    ensures cookie in db.sessions && realm in db.ids.realms
    ensures var x, s := db.ids.realms[realm], db.sessions[cookie];
            Authorize(db, cfg, realm, client, Some(cookie), params, now)
            == (db.(sessions := db.sessions[cookie := Touched(x, cfg, s, now)],
                    authSessions := db.authSessions[db.supply := Tab(x, realm, client, params, Some(s.user), now)],
                    codes := db.codes[db.supply + 1 := CodeFor(x, cfg, s, cookie, client, params, now)],
                    events := db.events[db.supply + 2 := Event(realm, Some(client), Some(s.user), Some(cookie))],
                    supply := db.supply + 3),
                CodeIssued(db.supply + 1, cookie))
  {
    hide RequestAllowed, Live;
    EligibleIsThere(db, cookie, realm, now);
    TouchedIs(db, cfg, db.sessions[cookie], now);
    hide Touched, Extended, OnlyRows;
  }

  /** Without a browser session that is served, a login page with its authentication
      session and nothing else. */
  lemma LoginPageEffect(db: Db, cfg: Config, realm: Id, client: Id, cookie: Option<Id>, params: AuthParams, now: Time)
    requires Authorize(db, cfg, realm, client, cookie, params, now).1.LoginPage?
    ensures realm in db.ids.realms
    ensures Authorize(db, cfg, realm, client, cookie, params, now)
            == (db.(authSessions := db.authSessions[db.supply := Tab(db.ids.realms[realm], realm, client, params,
                                                                    None, now)],
                    supply := db.supply + 1),
                LoginPage(db.supply))
  {
    hide Eligible, Reused, WithCode, OnlyRows;
  }

  /** A completed login marks its authentication session and adds a session that begins
      now, a code of it and an event. */
  lemma LoginEffect(db: Db, cfg: Config, tab: Id, user: Id, now: Time)
    requires CompleteLogin(db, cfg, tab, user, now).1.CodeIssued?
    ensures tab in db.authSessions && db.authSessions[tab].realm in db.ids.realms
    ensures var auth := db.authSessions[tab];
            var x := db.ids.realms[auth.realm];
            var s := Begun(x, cfg, auth.realm, auth.client, user, now);
            CompleteLogin(db, cfg, tab, user, now)
            == (db.(sessions := db.sessions[db.supply := s],
                    authSessions := db.authSessions[tab := auth.(selectedUser := Some(user), authenticated := true)],
                    codes := db.codes[db.supply + 1 := CodeFor(x, cfg, s, db.supply, auth.client, auth.params, now)],
                    events := db.events[db.supply + 2 :=
                                Event(auth.realm, Some(auth.client), Some(user), Some(db.supply))],
                    supply := db.supply + 3),
                CodeIssued(db.supply + 1, db.supply))
  {
    hide RequestAllowed, Live;
    var auth := db.authSessions[tab];
    BegunIs(db, cfg, auth.realm, auth.client, user, now);
    hide Begun, NewSession, OnlyRows;
  }

  // ---------------------------------------------------------------- keys and identities

  /** Rotation: every active key of the realm is closed at this moment, one new active
      key is added, and no other key changes. */
  lemma RotationEffect(db: Db, realm: Id, now: Time)
    requires RotateKey(db, realm, now).1 == Done
    ensures var after := RotateKey(db, realm, now).0;
            && after == db.(keys := after.keys, supply := db.supply + 2)
            && after.keys.Keys == db.keys.Keys + {db.supply}
            && after.keys[db.supply] == Key(realm, true, db.supply + 1, true, None)
            && forall k | k in db.keys && k != db.supply ::
                 if db.keys[k].realm == realm && db.keys[k].active && db.keys[k].rs256
                 then after.keys[k] == db.keys[k].(active := false, deactivatedAt := Some(now))
                 else after.keys[k] == db.keys[k]
  {}

  lemma RotationReplies(db: Db, realm: Id, now: Time)
    ensures RotateKey(db, realm, now).1 ==
      (if realm in db.ids.realms && db.ids.realms[realm].enabled then Done else Refused(NotFound))
    ensures RotateKey(db, realm, now).1 != Done ==> RotateKey(db, realm, now).0 == db
  {}

  /** Provisioning adds one active key exactly to a realm that has no key. */
  lemma ProvisioningEffect(db: Db, realm: Id, clock: Time)
    requires Inv(db, clock)
    ensures EnsureKey(db, realm) ==
      if realm !in db.ids.realms then (db, Refused(NotFound))
      else if HasKey(db.keys, realm) then (db, Done)
      else (db.(keys := db.keys[db.supply := Key(realm, true, db.supply + 1, true, None)], supply := db.supply + 2),
            Done)
  {
    hide Inv, ActiveKeys, OnlyKeys, HasKey;
    OneActiveKey(db, realm, clock);
  }

  /** An administrative update changes one row of one table, never its name or realm. */
  lemma UpdateEffect(db: Db, change: Change)
    requires Administer(db, change).1 == Done && !change.CreateRealm? && !change.CreateClient? && !change.CreateUser?
    ensures var after := Administer(db, change).0;
            && after == db.(ids := after.ids, supply := db.supply + 1)
            && match change
               case UpdateRealm(r, row) =>
                 && r in db.ids.realms
                 && after.ids == db.ids.(realms := db.ids.realms[r := Realm(
                      row.enabled, db.ids.realms[r].issuer, db.ids.realms[r].resetFlow, row.accessSeconds,
                      row.codeSeconds, row.refreshSeconds, row.idleSeconds, row.maxSeconds)])
               case UpdateClient(c, row) =>
                 && c in db.ids.clients
                 && after.ids == db.ids.(clients := db.ids.clients[c := Client(
                      db.ids.clients[c].realm, db.ids.clients[c].clientId, row.enabled, row.standardFlow,
                      row.pkcePolicy)])
               case UpdateUser(u, enabled) =>
                 && u in db.ids.users
                 && after.ids == db.ids.(users := db.ids.users[u := User(db.ids.users[u].realm, enabled)])
               case _ => true
  {}

  /** A creation adds one row under a new identifier; a client id is taken once a realm. */
  lemma CreationEffect(db: Db, change: Change)
    requires change.CreateRealm? || change.CreateClient? || change.CreateUser?
    ensures var (after, reply) := Administer(db, change);
            && reply == (match change
                         case CreateRealm(_) => Done
                         case CreateClient(row) =>
                           if row.realm !in db.ids.realms then Refused(NotFound)
                           else if exists c :: c in db.ids.clients && db.ids.clients[c].realm == row.realm
                                               && db.ids.clients[c].clientId == row.clientId
                           then Refused(Conflict) else Done
                         case CreateUser(row) => if row.realm in db.ids.realms then Done else Refused(NotFound)
                         case _ => Done)
            && after == if reply != Done then db else db.(supply := db.supply + 1, ids := match change
                 case CreateRealm(row) => db.ids.(realms := db.ids.realms[db.supply := row.(resetFlow := None)])
                 case CreateClient(row) => db.ids.(clients := db.ids.clients[db.supply := row])
                 case CreateUser(row) => db.ids.(users := db.ids.users[db.supply := row])
                 case _ => db.ids)
  {}

  /** An update of a missing row is refused. */
  lemma UpdateReplies(db: Db, change: Change)
    requires change.UpdateRealm? || change.UpdateClient? || change.UpdateUser?
    ensures var there := match change
                         case UpdateRealm(r, _) => r in db.ids.realms
                         case UpdateClient(c, _) => c in db.ids.clients
                         case UpdateUser(u, _) => u in db.ids.users
                         case _ => true;
            && Administer(db, change).1 == (if there then Done else Refused(NotFound))
            && (!there ==> Administer(db, change).0 == db)
  {}

  // ---------------------------------------------------------------- the throttle

  /** The three requests on a bucket: one more failure of an existing realm, the question
      whether its block lasts, and a clearing, which removes just that bucket. */
  lemma ThrottleEffects(db: Db, cfg: Config, b: BucketKey, now: Time)
    ensures CountFailure(db, cfg, b, now) ==
      if b.realm in db.ids.realms
      then (db.(buckets := db.buckets[b := Throttle.RecordFailure(
                             if b in db.buckets then Some(db.buckets[b]) else None, cfg, now)]), Done)
      else (db, Refused(NotFound))
    ensures AskBlocked(db, b, now)
            == (db, Answer(b in db.buckets && db.buckets[b].blockedUntil != None
                           && now < db.buckets[b].blockedUntil.value))
    ensures ClearFailures(db, b) == (db.(buckets := map x | x in db.buckets && x != b :: db.buckets[x]), Done)
  {
    assert db.buckets - {b} == map x | x in db.buckets && x != b :: db.buckets[x];
  }

  // ---------------------------------------------------------------- deletions

  /** A deletion is refused exactly if the row is missing, and takes it otherwise. */
  lemma DeletionReplies(db: Db, cfg: Config, request: Request, now: Time)
    requires request.RequestDeleteClient? || request.RequestDeleteRealm?
    ensures var (after, reply) := Apply(db, cfg, request, now);
            var there := match request
                         case RequestDeleteClient(c, _) => c in db.ids.clients
                         case RequestDeleteRealm(r) => r in db.ids.realms
                         case _ => true;
            && reply == (if there then Done else Refused(NotFound))
            && (!there ==> after == db)
            && (request.RequestDeleteClient? ==> after.ids.clients.Keys == db.ids.clients.Keys - {request.client})
            && (request.RequestDeleteRealm? ==> after.ids.realms.Keys == db.ids.realms.Keys - {request.realm})
  {
    if request.RequestDeleteClient? && request.client in db.ids.clients {
      OtherClientsUntouched(db, request.client, Owners(db, request.client, request.pick));
      assert forall d :: d in Apply(db, cfg, request, now).0.ids.clients.Keys <==>
               d in db.ids.clients && d != request.client;
    }
    hide OnlyRows, OnlyKeys, Owners;
  }

  // ---------------------------------------------------------------- refusals

  /** A refused request leaves no trace; only a reused refresh token does. */
  lemma RefusalsRollBack(db: Db, cfg: Config, request: Request, now: Time)
    requires Apply(db, cfg, request, now).1.Refused? && Apply(db, cfg, request, now).1 != Refused(RefreshReuse)
    ensures Apply(db, cfg, request, now).0 == db
  {
    hide Decodes, RefreshMatches, ProofAccepted, Eligible, IssueTokens, Distinct, Narrows, ConsumeAndExtend, Revoke,
         RequestAllowed, MayCreateSession, Reused, WithCode, NewSession, NewAuth, HintVerifies, Verifies,
         ActiveKeys, Changed, Verdict, BatchFits, DropBatch, Deactivated, OnlyRows, OnlyKeys;
  }
}

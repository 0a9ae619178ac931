/** The services statement by statement, inside the transaction of one request,
    proved against the specification of the protocol. */
module Services {
  import opened Prelude
  import opened Tables
  import opened Protocol
  import opened UnitOfWork
  import opened Throttle

  // ---------------------------------------------------------------- conditional updates

  /** `lock_session`: a conditional write that touches a live session and changes nothing. */
  method LockSession(session: Session, sid: Id, now: Time) returns (row: Option<UserSession>)
    modifies session
    ensures session.tables == old(session.tables) && session.durable == old(session.durable)
    ensures row == if sid in session.tables.sessions && Live(session.tables.sessions[sid], now)
                   then Some(session.tables.sessions[sid]) else None
  {
    var db := session.tables;
    if sid in db.sessions && Live(db.sessions[sid], now) {
      var same := db.sessions[sid];
      assert db.sessions[sid := same.(lastRefresh := same.lastRefresh)] == db.sessions;
      session.Execute(PutSession(db, sid, same.(lastRefresh := same.lastRefresh)));
      return Some(same);
    }
    return None;
  }

  /** `RefreshTokenRepository.consume`: the compare-and-set on `used_at`. */
  method ConsumeToken(session: Session, t: Id, now: Time) returns (consumed: bool)
    modifies session
    ensures var db := old(session.tables);
            consumed <==> t in db.tokens && db.tokens[t].usedAt.None? && db.tokens[t].revokedAt.None?
                          && now < db.tokens[t].expiresAt
    ensures consumed ==>
      session.tables == PutToken(old(session.tables), t, old(session.tables).tokens[t].(usedAt := Some(now)))
    ensures !consumed ==> session.tables == old(session.tables)
    ensures session.durable == old(session.durable)
  {
    var db := session.tables;
    consumed := t in db.tokens && db.tokens[t].usedAt.None? && db.tokens[t].revokedAt.None?
                && now < db.tokens[t].expiresAt;
    if consumed {
      session.Execute(PutToken(db, t, db.tokens[t].(usedAt := Some(now))));
    }
  }

  /** `AuthorizationCodeRepository.consume`: the compare-and-set on `consumed_at`. */
  method ConsumeCode(session: Session, c: Id, realm: Id, client: Id, uri: string, now: Time) returns (consumed: bool)
    modifies session
    ensures var db := old(session.tables);
            consumed <==> c in db.codes && db.codes[c].realm == realm && db.codes[c].client == client
                          && db.codes[c].params.redirectUri == uri && db.codes[c].consumedAt.None?
                          && now < db.codes[c].expiresAt
    ensures consumed ==>
      session.tables == PutCode(old(session.tables), c, old(session.tables).codes[c].(consumedAt := Some(now)))
    ensures !consumed ==> session.tables == old(session.tables)
    ensures session.durable == old(session.durable)
  {
    var db := session.tables;
    consumed := c in db.codes && db.codes[c].realm == realm && db.codes[c].client == client
                && db.codes[c].params.redirectUri == uri && db.codes[c].consumedAt.None?
                && now < db.codes[c].expiresAt;
    if consumed {
      session.Execute(PutCode(db, c, db.codes[c].(consumedAt := Some(now))));
    }
  }

  /** `UserSessionRepository.revoke`: first the session row, then its tokens. */
  method RevokeSession(session: Session, sid: Id, realm: Id, now: Time) returns (found: bool)
    modifies session
    ensures session.tables == Revoke(old(session.tables), sid, realm, now)
    ensures found <==> sid in old(session.tables).sessions && old(session.tables).sessions[sid].realm == realm
    ensures session.durable == old(session.durable)
  {
    var db := session.tables;
    if sid !in db.sessions || db.sessions[sid].realm != realm {
      return false;
    }
    var s := db.sessions[sid];
    var at := if s.revokedAt.Some? then s.revokedAt.value else now;
    session.Execute(PutSession(db, sid, s.(revokedAt := Some(at))));
    session.Execute(session.tables.(tokens := Swept(session.tables.tokens, realm, sid, at)));
    return true;
  }

  // ---------------------------------------------------------------- tokens

  /** `TokenService.issue`: checks, one inserted row, then the link of its parent. */
  method Issue(session: Session, cfg: Config, realm: Id, client: Id, sid: Id, scope: Scope,
               nonce: Option<string>, parent: Option<Id>, now: Time) returns (outcome: Issuance)
    requires parent.Some? ==> parent.value in session.tables.tokens
    modifies session
    ensures outcome == IssueTokens(old(session.tables), cfg, realm, client, sid, scope, nonce, parent, now)
    ensures outcome.Issued? ==> session.tables == outcome.db
    ensures outcome.NotIssued? ==> session.tables == old(session.tables)
    ensures session.durable == old(session.durable)
  {
    hide NewRefresh, CommonClaims, AccessExpiry, OnlyRows;
    var db := session.tables;
    if !Authenticated(db, realm, client) || !Eligible(db, sid, realm, now) {
      return NotIssued(InvalidGrant);
    }
    var active := ActiveKeys(db.keys, realm);
    if |active| != 1 {
      return NotIssued(Unavailable);
    }
    var kid := Only(active);
    var accessExpiry := AccessExpiry(db, cfg, db.sessions[sid], realm, now);
    var bearer := CommonClaims(db, realm, client, sid, scope, Bearer, Floor(accessExpiry), db.supply + 1, now);
    var access := Sign(db, kid, bearer);
    var row := NewRefresh(db, cfg, realm, client, sid, scope, parent, now);
    var t := db.supply + 2;
    var idToken := None;
    if "openid" in scope {
      idToken := Some(Sign(db, kid, bearer.(typ := ID, jti := db.supply + 3, nonce := nonce)));
    }
    session.Execute(PutToken(Draw(db, 4), t, row));
    if parent.Some? {
      var linked := db.tokens[parent.value].(replacedBy := Some(t));
      session.Execute(PutToken(session.tables, parent.value, linked));
    }
    outcome := Issued(session.tables,
      TokenResponse(access, row.hash, idToken, Floor(accessExpiry) - Floor(now),
                    Floor(row.expiresAt) - Floor(now), sid, scope));
  }

  /** The grant of `_refresh_grant` and `token`: the checks of `TokenService.refresh`
      in order, defensive revocation on reuse, then commit or rollback. */
  method Refresh(session: Session, cfg: Config, realm: Id, client: Id, raw: Jwt, narrowed: Option<Scope>, now: Time)
    returns (reply: Reply)
    requires session.tables == session.durable
    modifies session
    ensures (session.durable, reply) == RefreshGrant(old(session.durable), cfg, realm, client, raw, narrowed, now)
    ensures session.tables == session.durable
  {
    hide Decodes, IssueTokens, Revoke, Distinct, OnlyRows, Expired, Narrows;
    ghost var before := session.durable;
    var db := session.tables;
    if !Authenticated(db, realm, client) {
      return Refused(InvalidClient);
    }
    if !Decodes(db, raw, realm, db.ids.clients[client].clientId, TokenType.Refresh, true, now)
       || !HasToken(db, raw, realm, client)
    {
      return Refused(InvalidGrant);
    }
    var t, sid := raw.claims.jti, raw.claims.sid;
    var locked := LockSession(session, db.tokens[t].session, now);
    if locked.None? || db.tokens[t].session != sid || !Eligible(session.tables, sid, realm, now) {
      session.Rollback();
      return Refused(InvalidGrant);
    }
    db := session.tables;
    if !HasToken(db, raw, realm, client) || !RefreshMatches(db.tokens[t], raw.claims, sid, db.sessions[sid], now) {
      session.Rollback();
      return Refused(InvalidGrant);
    }
    var event := Event(realm, Some(client), Some(db.sessions[sid].user), Some(sid));
    if db.tokens[t].usedAt.Some? {
      var found := RevokeSession(session, sid, realm, now);
      session.Execute(LogEvent(session.tables, event));
      session.Commit();
      return Refused(RefreshReuse);
    }
    var requested := if narrowed.Some? then narrowed.value else db.tokens[t].scope;
    if !Narrows(requested, db.tokens[t].scope) {
      session.Rollback();
      return Refused(InvalidScope);
    }
    var consumed := ConsumeToken(session, t, now);
    session.Execute(PutSession(session.tables, sid, Extended(session.tables, cfg, session.tables.sessions[sid], now)));
    assert session.tables == ConsumeAndExtend(before, cfg, t, now);
    var outcome := Issue(session, cfg, realm, client, sid, Distinct(requested), None, Some(t), now);
    if outcome.NotIssued? {
      session.Rollback();
      return Refused(outcome.error);
    }
    session.Execute(LogEvent(session.tables, event));
    session.Commit();
    return Tokens(outcome.response);
  }

  /** The authorization code grant: `AuthorizationService.consume`, issue, commit. */
  method Exchange(session: Session, cfg: Config, realm: Id, client: Id, raw: Id, uri: string,
                  verifier: Option<string>, now: Time) returns (reply: Reply)
    requires session.tables == session.durable
    modifies session
    ensures (session.durable, reply) == ExchangeGrant(old(session.durable), cfg, realm, client, raw, uri, verifier, now)
    ensures session.tables == session.durable
  {
    hide IssueTokens, ProofAccepted, OnlyRows, IdentitiesEnabled, Live;
    var db := session.tables;
    if !Authenticated(db, realm, client) {
      return Refused(InvalidClient);
    }
    if raw !in db.codes || db.codes[raw].realm != realm || db.codes[raw].client != client
       || db.codes[raw].params.redirectUri != uri || db.codes[raw].consumedAt.Some?
       || db.codes[raw].expiresAt <= now
    {
      session.Rollback();
      return Refused(InvalidGrant);
    }
    var code := db.codes[raw];
    if !EnabledClient(db, realm, client) || !db.ids.clients[client].standardFlow
       || !Eligible(db, code.session, realm, now) || db.sessions[code.session].user != code.user
    {
      session.Rollback();
      return Refused(InvalidGrant);
    }
    if !ProofAccepted(code.params, db.ids.clients[client].pkcePolicy, verifier) {
      session.Rollback();
      return Refused(InvalidGrant);
    }
    var consumed := ConsumeCode(session, raw, realm, client, uri, now);
    var outcome := Issue(session, cfg, realm, client, code.session, code.params.scope, code.params.nonce, None, now);
    if outcome.NotIssued? {
      session.Rollback();
      return Refused(outcome.error);
    }
    session.Execute(LogEvent(session.tables, Event(realm, Some(client), Some(code.user), Some(code.session))));
    session.Commit();
    return Tokens(outcome.response);
  }

  /** Logout by a refresh token or by an ID token hint. */
  method Logout(session: Session, realm: Id, sid: Id, client: Option<Id>, now: Time)
    requires session.tables == session.durable && sid in session.tables.sessions
    requires session.tables.sessions[sid].realm == realm
    modifies session
    ensures session.durable == session.tables
    ensures session.durable ==
      LogEvent(Revoke(old(session.durable), sid, realm, now),
               Event(realm, client, Some(old(session.durable).sessions[sid].user), Some(sid)))
  {
    hide OnlyRows, Swept;
    var user := session.tables.sessions[sid].user;
    var found := RevokeSession(session, sid, realm, now);
    session.Execute(LogEvent(session.tables, Event(realm, client, Some(user), Some(sid))));
    session.Commit();
  }

  // ---------------------------------------------------------------- sessions and codes

  /** `UserSessionService.create`. */
  method CreateSession(session: Session, cfg: Config, realm: Id, client: Id, user: Id, now: Time)
    returns (sid: Option<Id>)
    modifies session
    ensures sid.Some? <==> MayCreateSession(old(session.tables), realm, client, user)
    ensures sid.Some? ==>
      && sid.value == old(session.tables).supply && realm in old(session.tables).ids.realms
      && session.tables == PutSession(Draw(old(session.tables), 1), sid.value,
                                      NewSession(old(session.tables), cfg, realm, client, user, now))
    ensures sid.None? ==> session.tables == old(session.tables)
    ensures session.durable == old(session.durable)
  {
    var db := session.tables;
    if !MayCreateSession(db, realm, client, user) {
      return None;
    }
    var settings := db.ids.realms[realm];
    var maximum := After(now, settings.maxSeconds, cfg.maxSeconds);
    var idle := Min(maximum, After(now, settings.idleSeconds, cfg.idleSeconds));
    var row := UserSession(realm, client, user, now, now, idle, maximum, None);
    session.Execute(PutSession(Draw(db, 1), db.supply, row));
    return Some(db.supply);
  }

  /** `UserSessionService.reuse`: an eligible session is extended, any other left alone. */
  method Reuse(session: Session, cfg: Config, sid: Id, realm: Id, now: Time) returns (reused: bool)
    modifies session
    ensures reused <==> Eligible(old(session.tables), sid, realm, now)
    ensures reused ==> session.tables == PutSession(old(session.tables), sid,
                         Extended(old(session.tables), cfg, old(session.tables).sessions[sid], now))
    ensures !reused ==> session.tables == old(session.tables)
    ensures session.durable == old(session.durable)
  {
    var db := session.tables;
    reused := Eligible(db, sid, realm, now);
    if reused {
      var s := db.sessions[sid];
      var idle := Min(s.maxExpires, After(now, db.ids.realms[realm].idleSeconds, cfg.idleSeconds));
      session.Execute(PutSession(db, sid, s.(lastRefresh := now, idleExpires := idle)));
    }
  }

  // ---------------------------------------------------------------- signing keys

  /** `ensure_active_key` in its own transaction. */
  method EnsureActiveKey(session: Session, realm: Id) returns (reply: Reply)
    requires session.tables == session.durable
    modifies session
    ensures (session.durable, reply) == EnsureKey(old(session.durable), realm)
    ensures session.tables == session.durable
  {
    hide ActiveKeys, OnlyKeys;
    var db := session.tables;
    if realm !in db.ids.realms {
      return Refused(NotFound);
    }
    var existing := ActiveKeys(db.keys, realm);
    if |existing| > 1 {
      session.Rollback();
      return Refused(Unavailable);
    }
    if |existing| == 0 {
      session.Execute(PutKey(Draw(db, 2), db.supply, Key(realm, true, db.supply + 1, true, None)));
      session.Commit();
    }
    return Done;
  }

  /** `rotate_active_key`: deactivate, then add the replacement. */
  method RotateActiveKey(session: Session, realm: Id, now: Time) returns (reply: Reply)
    requires session.tables == session.durable
    modifies session
    ensures (session.durable, reply) == RotateKey(old(session.durable), realm, now)
    ensures session.tables == session.durable
  {
    hide Deactivated, OnlyKeys;
    var db := session.tables;
    if realm !in db.ids.realms || !db.ids.realms[realm].enabled {
      session.Rollback();
      return Refused(NotFound);
    }
    var replacement := Key(realm, true, db.supply + 1, true, None);
    session.Execute(db.(keys := Deactivated(db.keys, realm, now)));
    session.Execute(PutKey(Draw(session.tables, 2), db.supply, replacement));
    session.Commit();
    return Done;
  }

  // ---------------------------------------------------------------- login throttle

  /** `record_failure`: insert, or on conflict update unless the row is still blocked. */
  method CountLoginFailure(session: Session, cfg: Config, b: BucketKey, now: Time)
    requires b.realm in session.tables.ids.realms
    modifies session
    ensures session.tables == old(session.tables).(buckets :=
      old(session.tables).buckets[b := RecordFailure(BucketOf(old(session.tables), b), cfg, now)])
    ensures session.durable == old(session.durable)
  {
    var db := session.tables;
    var expires := now + Max(Window(cfg), Lock(cfg));
    if b !in db.buckets {
      var blocked := if cfg.threshold == 1 then Some(now + Lock(cfg)) else None;
      session.Execute(db.(buckets := db.buckets[b := Bucket(1, now, now, blocked, expires)]));
      return;
    }
    var row := db.buckets[b];
    if row.blockedUntil.Some? && now < row.blockedUntil.value {
      assert db.buckets[b := row] == db.buckets;
      return;
    }
    var restart := row.firstFailure + Window(cfg) <= now
                   || (row.blockedUntil.Some? && row.blockedUntil.value <= now);
    var count, first := row.count + 1, row.firstFailure;
    if restart {
      count, first := 1, now;
    }
    var blocked := if count >= cfg.threshold then Some(now + Lock(cfg)) else None;
    session.Execute(db.(buckets := db.buckets[b := Bucket(count, first, now, blocked, expires)]));
  }
}

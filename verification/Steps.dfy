/** Every request keeps the invariant. */
module Steps {
  import opened Prelude
  import opened Tables
  import opened Protocol
  import opened Invariants
  import opened Retention
  import opened Removal

  // ---------------------------------------------------------------- single statements

  lemma LogEventKeepsInv(db: Db, row: Event, now: Time)
    requires Inv(db, now) && EventRefs(db.ids, db.sessions, row)
    ensures Inv(LogEvent(db, row), now)
  {
    hide IdentityRefs, KeyTable, BucketTable, AuthTable, MailTable, SessionTable, CodeTable,
         TokenTable, LinkTable, FamiliesOk, Recorded, CreatedBy, SessionsBounded, TokensBounded, KeysOk;
  }

  /** Token rows stay as they are while sessions move, and stay in their sessions. */
  lemma SameTokensSettle(db: Db, after: Db)
    requires Integrity(db) && after.tokens == db.tokens && db.sessions.Keys <= after.sessions.Keys
    ensures TokensSettle(db.tokens, after.tokens)
    ensures forall t | t in after.tokens :: after.tokens[t].session in after.sessions
  {
    hide IdentityRefs, KeyTable, BucketTable, AuthTable, MailTable, EventTable, SessionTable, CodeTable;
    assert forall t | t in db.tokens :: TokenRefs(db.ids, db.sessions, db.tokens[t]);
  }

  lemma PutSessionKeepsRefs(db: Db, s: Id, row: UserSession)
    requires Integrity(db) && SessionRefs(db.ids, row)
    requires s in db.sessions ==> db.sessions[s].realm == row.realm && db.sessions[s].user == row.user
    ensures Integrity(PutSession(db, s, row))
  {
    hide IdentityRefs, KeyTable, BucketTable, AuthTable, MailTable, EventTable, CodeTable, TokenTable, LinkTable;
    assert SessionTable(db.ids, db.sessions[s := row]);
    SessionsMovedKeepRefs(db, db.sessions[s := row]);
  }

  lemma PutSessionKeepsInv(db: Db, s: Id, row: UserSession, now: Time)
    requires Inv(db, now) && SessionRefs(db.ids, row)
    requires row.idleExpires <= row.maxExpires && s < db.supply
    requires s in db.sessions ==>
      && db.sessions[s].realm == row.realm && db.sessions[s].user == row.user
      && db.sessions[s].authTime == row.authTime && db.sessions[s].maxExpires == row.maxExpires
    ensures Inv(PutSession(db, s, row), now)
  {
    hide Integrity, FamiliesOk, Recorded, CreatedBy, TokensBounded, KeysOk, TokensSettle;
    var after := PutSession(db, s, row);
    PutSessionKeepsRefs(db, s, row);
    SameTokensSettle(db, after);
    SameAnchors(db, after, now);
    assert Drawn(after) && SessionsBounded(after.sessions);
    SettlingKeepsInv(db, after, now);
  }

  lemma PutCodeKeepsInv(db: Db, c: Id, row: Code, now: Time)
    requires Inv(db, now) && CodeRefs(db.ids, db.sessions, row) && c < db.supply
    ensures Inv(PutCode(db, c, row), now)
  {
    hide IdentityRefs, KeyTable, BucketTable, AuthTable, MailTable, SessionTable, EventTable,
         TokenTable, LinkTable, FamiliesOk, Recorded, CreatedBy, SessionsBounded, TokensBounded, KeysOk;
  }

  lemma PutAuthKeepsMails(db: Db, a: Id, row: AuthSession)
    requires MailTable(db.ids, db.authSessions, db.resetEmails)
    requires a in db.authSessions ==> db.authSessions[a].realm == row.realm
    ensures MailTable(db.ids, db.authSessions[a := row], db.resetEmails)
  {
    forall m | m in db.resetEmails
      ensures MailRefs(db.ids, db.authSessions[a := row], db.resetEmails[m])
    {
      assert MailRefs(db.ids, db.authSessions, db.resetEmails[m]);
    }
  }

  lemma PutAuthKeepsInv(db: Db, a: Id, row: AuthSession, now: Time)
    requires Inv(db, now) && AuthRefs(db.ids, row) && a < db.supply
    requires a in db.authSessions ==> db.authSessions[a].realm == row.realm
    ensures Inv(PutAuth(db, a, row), now)
  {
    hide IdentityRefs, KeyTable, BucketTable, MailTable, SessionTable, EventTable, CodeTable,
         TokenTable, LinkTable, FamiliesOk, Recorded, CreatedBy, SessionsBounded, TokensBounded, KeysOk;
    PutAuthKeepsMails(db, a, row);
  }

  lemma SettleKeepsInv(db: Db, tokens: map<Id, RefreshToken>, now: Time)
    requires Inv(db, now) && TokensSettle(db.tokens, tokens)
    ensures Inv(db.(tokens := tokens), now)
  {
    var after := db.(tokens := tokens);
    assert forall t | t in tokens :: tokens[t].session in db.sessions by {
      forall t | t in tokens ensures tokens[t].session in db.sessions {
        assert Settled(db.tokens[t], tokens[t]) && TokenRefs(db.ids, db.sessions, db.tokens[t]);
      }
    }
    hide Integrity, FamiliesOk, Recorded, CreatedBy, TokensBounded, KeysOk, TokensSettle;
    SettlingTokensKeepsRefs(db, tokens);
    DroppingKeepsDrawn(db, after);
    SameAnchors(db, after, now);
    SettlingKeepsInv(db, after, now);
  }

  // ---------------------------------------------------------------- references of used rows

  lemma NextIsFresh(db: Db, now: Time)
    requires Inv(db, now)
    ensures db.supply !in db.sessions && db.supply !in db.authSessions
    ensures LinkTable(db.tokens) && Linear(db.tokens)
  {
    hide IdentityRefs, KeyTable, BucketTable, AuthTable, MailTable, EventTable, CodeTable, TokenTable,
         LinkTable, Linear, Linked, RowsOk, KeysOk;
  }

  lemma SessionRow(db: Db, sid: Id, now: Time)
    requires Inv(db, now) && sid in db.sessions
    ensures SessionRefs(db.ids, db.sessions[sid])
    ensures db.sessions[sid].idleExpires <= db.sessions[sid].maxExpires && sid < db.supply
  {
    hide IdentityRefs, KeyTable, BucketTable, AuthTable, MailTable, EventTable, CodeTable, TokenTable,
         LinkTable, FamiliesOk, Recorded, CreatedBy, TokensBounded, KeysOk;
  }

  lemma ExtendKeepsInv(db: Db, cfg: Config, sid: Id, now: Time)
    requires Inv(db, now) && sid in db.sessions && db.sessions[sid].realm in db.ids.realms
    ensures Inv(PutSession(db, sid, Extended(db, cfg, db.sessions[sid], now)), now)
  {
    hide Inv;
    SessionRow(db, sid, now);
    PutSessionKeepsInv(db, sid, Extended(db, cfg, db.sessions[sid], now), now);
  }

  lemma CreateSessionKeepsInv(db: Db, cfg: Config, realm: Id, client: Id, user: Id, n: nat, now: Time)
    requires Inv(db, now) && MayCreateSession(db, realm, client, user) && 0 < n
    ensures Inv(PutSession(Draw(db, n), db.supply, NewSession(db, cfg, realm, client, user, now)), now)
  {
    hide Inv;
    NextIsFresh(db, now);
    DrawKeepsInv(db, n, now);
    PutSessionKeepsInv(Draw(db, n), db.supply, NewSession(db, cfg, realm, client, user, now), now);
  }

  // ---------------------------------------------------------------- revocation

  /** The state after a revocation, table by table. */
  lemma RevokedState(db: Db, sid: Id, realm: Id, now: Time)
    requires sid in db.sessions && db.sessions[sid].realm == realm
    ensures var s := db.sessions[sid];
            var at := if s.revokedAt.Some? then s.revokedAt.value else now;
            Revoke(db, sid, realm, now) == db.(sessions := db.sessions[sid := s.(revokedAt := Some(at))],
                                               tokens := Swept(db.tokens, realm, sid, at))
  {
    hide Swept;
  }

  lemma NotRevoked(db: Db, sid: Id, realm: Id, now: Time)
    requires sid in db.sessions && db.sessions[sid].realm != realm
    ensures Revoke(db, sid, realm, now) == db
  {}

  lemma SweepSettles(tokens: map<Id, RefreshToken>, realm: Id, sid: Id, at: Time)
    requires LinkTable(tokens)
    ensures TokensSettle(tokens, Swept(tokens, realm, sid, at))
  {}

  lemma RevokeKeepsInv(db: Db, sid: Id, realm: Id, now: Time)
    requires Inv(db, now)
    ensures Inv(Revoke(db, sid, realm, now), now)
  {
    hide Inv, TokensSettle, LinkTable, Linear;
    NextIsFresh(db, now);
    if sid in db.sessions && db.sessions[sid].realm == realm {
      var s := db.sessions[sid];
      var at := if s.revokedAt.Some? then s.revokedAt.value else now;
      SweepSettles(db.tokens, realm, sid, at);
      SettleKeepsInv(db, Swept(db.tokens, realm, sid, at), now);
      SessionRow(db, sid, now);
      PutSessionKeepsInv(db.(tokens := Swept(db.tokens, realm, sid, at)), sid,
                         s.(revokedAt := Some(at)), now);
    }
  }

  /** Revoke, then log the event of a session that exists. */
  lemma RevokeAndLogKeepsInv(db: Db, sid: Id, realm: Id, client: Option<Id>, now: Time)
    requires Inv(db, now) && sid in db.sessions && db.sessions[sid].realm == realm
    requires client.Some? ==> ClientOf(db.ids, client.value, realm)
    ensures Inv(LogEvent(Revoke(db, sid, realm, now),
                         Event(realm, client, Some(db.sessions[sid].user), Some(sid))), now)
  {
    hide Inv;
    SessionRow(db, sid, now);
    RevokeKeepsInv(db, sid, realm, now);
    LogEventKeepsInv(Revoke(db, sid, realm, now),
                     Event(realm, client, Some(db.sessions[sid].user), Some(sid)), now);
  }

  // ---------------------------------------------------------------- token grants

  /** Issue, then log the event. */
  lemma IssueAndLogKeepsInv(db: Db, cfg: Config, realm: Id, client: Id, sid: Id, scope: Scope,
                            nonce: Option<string>, parent: Option<Id>, now: Time)
    requires Inv(db, now)
    requires parent.Some? ==> ParentReady(db, parent.value, realm, client, sid, scope)
    requires IssueTokens(db, cfg, realm, client, sid, scope, nonce, parent, now).Issued?
    ensures sid in db.sessions
    ensures Inv(LogEvent(IssueTokens(db, cfg, realm, client, sid, scope, nonce, parent, now).db,
                         Event(realm, Some(client), Some(db.sessions[sid].user), Some(sid))), now)
  {
    hide Inv;
    IssueKeepsInv(db, cfg, realm, client, sid, scope, nonce, parent, now);
    SessionRow(db, sid, now);
    LogEventKeepsInv(IssueTokens(db, cfg, realm, client, sid, scope, nonce, parent, now).db,
                     Event(realm, Some(client), Some(db.sessions[sid].user), Some(sid)), now);
  }

  lemma MarkUsedSettles(tokens: map<Id, RefreshToken>, t: Id, now: Time)
    requires LinkTable(tokens) && t in tokens && tokens[t].usedAt.None?
    ensures TokensSettle(tokens, tokens[t := tokens[t].(usedAt := Some(now))])
  {}

  lemma ConsumeKeepsInv(db: Db, cfg: Config, t: Id, now: Time)
    requires Inv(db, now) && t in db.tokens && db.tokens[t].usedAt.None?
    ensures db.tokens[t].session in db.sessions && db.sessions[db.tokens[t].session].realm in db.ids.realms
    ensures Inv(ConsumeAndExtend(db, cfg, t, now), now)
  {
    assert LinkTable(db.tokens);
    assert TokenRefs(db.ids, db.sessions, db.tokens[t]) by {
      hide IdentityRefs, KeyTable, BucketTable, AuthTable, MailTable, EventTable, CodeTable, RowsOk,
           LinkTable, FamiliesOk, KeysOk, Drawn;
    }
    hide Inv, LinkTable, TokensSettle;
    MarkUsedSettles(db.tokens, t, now);
    var used := PutToken(db, t, db.tokens[t].(usedAt := Some(now)));
    SettleKeepsInv(db, used.tokens, now);
    ExtendKeepsInv(used, cfg, db.tokens[t].session, now);
  }

  /** The only unused row of a family is its last one. */
  lemma UnusedIsReady(db: Db, cfg: Config, t: Id, scope: Scope, now: Time)
    requires Linear(db.tokens) && t in db.tokens && db.tokens[t].usedAt.None?
    requires db.tokens[t].session in db.sessions && db.sessions[db.tokens[t].session].realm in db.ids.realms
    requires Narrows(scope, db.tokens[t].scope)
    ensures var row := db.tokens[t];
            ParentReady(ConsumeAndExtend(db, cfg, t, now), t, row.realm, row.client, row.session, scope)
  {
    forall b | b in db.tokens && db.tokens[b].family == db.tokens[t].family
      ensures db.tokens[b].generation <= db.tokens[t].generation
    {
      assert InLine(t, db.tokens[t], b, db.tokens[b]);
    }
  }

  lemma RefreshKeepsInv(db: Db, cfg: Config, realm: Id, client: Id, raw: Jwt, narrowed: Option<Scope>, now: Time)
    requires Inv(db, now)
    ensures Inv(RefreshGrant(db, cfg, realm, client, raw, narrowed, now).0, now)
  {
    hide Inv, Linear, LinkTable, ParentReady, Decodes, RefreshMatches, IssueTokens, Revoke, ConsumeAndExtend, Distinct;
    var t, sid := raw.claims.jti, raw.claims.sid;
    if RefreshGrant(db, cfg, realm, client, raw, narrowed, now).0 != db {
      assert db.tokens[t].realm == realm && db.tokens[t].client == client && db.tokens[t].session == sid;
      if db.tokens[t].usedAt.Some? {
        RevokeAndLogKeepsInv(db, sid, realm, Some(client), now);
      } else {
        NextIsFresh(db, now);
        var requested := if narrowed.Some? then narrowed.value else db.tokens[t].scope;
        ConsumeKeepsInv(db, cfg, t, now);
        UnusedIsReady(db, cfg, t, Distinct(requested), now);
        ConsumeKeepsUser(db, cfg, t, now);
        IssueAndLogKeepsInv(ConsumeAndExtend(db, cfg, t, now), cfg, realm, client, sid,
                            Distinct(requested), None, Some(t), now);
      }
    }
  }

  lemma ConsumeKeepsUser(db: Db, cfg: Config, t: Id, now: Time)
    requires t in db.tokens && db.tokens[t].session in db.sessions
    requires db.sessions[db.tokens[t].session].realm in db.ids.realms
    ensures var after, sid := ConsumeAndExtend(db, cfg, t, now), db.tokens[t].session;
            sid in after.sessions && after.sessions[sid].user == db.sessions[sid].user
  {}

  lemma ExchangeKeepsInv(db: Db, cfg: Config, realm: Id, client: Id, raw: Id, uri: string,
                         verifier: Option<string>, now: Time)
    requires Inv(db, now)
    ensures Inv(ExchangeGrant(db, cfg, realm, client, raw, uri, verifier, now).0, now)
  {
    if ExchangeGrant(db, cfg, realm, client, raw, uri, verifier, now).0 != db {
      var code := db.codes[raw];
      assert CodeRefs(db.ids, db.sessions, code) && raw < db.supply by {
        hide IdentityRefs, KeyTable, BucketTable, AuthTable, MailTable, EventTable, TokenTable, RowsOk,
             LinkTable, FamiliesOk, KeysOk, IssueTokens, ProofAccepted;
      }
      hide Inv, IssueTokens, ProofAccepted;
      var claimed := PutCode(db, raw, code.(consumedAt := Some(now)));
      PutCodeKeepsInv(db, raw, code.(consumedAt := Some(now)), now);
      IssueAndLogKeepsInv(claimed, cfg, realm, client, code.session, code.params.scope,
                          code.params.nonce, None, now);
    }
  }

  lemma PasswordKeepsInv(db: Db, cfg: Config, realm: Id, client: Id, user: Id, scope: Scope, now: Time)
    requires Inv(db, now)
    ensures Inv(PasswordGrant(db, cfg, realm, client, user, scope, now).0, now)
  {
    hide Inv, IssueTokens, NewSession, Distinct;
    if PasswordGrant(db, cfg, realm, client, user, scope, now).0 != db {
      CreateSessionKeepsInv(db, cfg, realm, client, user, 1, now);
      var created := PutSession(Draw(db, 1), db.supply, NewSession(db, cfg, realm, client, user, now));
      NewSessionUser(db, cfg, realm, client, user, now);
      IssueAndLogKeepsInv(created, cfg, realm, client, db.supply, Distinct(scope), None, None, now);
    }
  }

  lemma NewSessionUser(db: Db, cfg: Config, realm: Id, client: Id, user: Id, now: Time)
    requires realm in db.ids.realms
    ensures var s := NewSession(db, cfg, realm, client, user, now);
            s.user == user && s.realm == realm && s.client == client
  {}

  // ---------------------------------------------------------------- browser login

  lemma WithCodeKeepsInv(db: Db, cfg: Config, client: Id, sid: Id, params: AuthParams, c: Id, now: Time)
    requires Inv(db, now) && sid in db.sessions && db.sessions[sid].realm in db.ids.realms
    requires ClientOf(db.ids, client, db.sessions[sid].realm) && c < db.supply
    ensures Inv(WithCode(db, cfg, client, sid, params, c, now), now)
  {
    hide Inv;
    var s := db.sessions[sid];
    SessionRow(db, sid, now);
    PutCodeKeepsInv(db, c, NewCode(db, cfg, client, sid, params, now), now);
    LogEventKeepsInv(PutCode(db, c, NewCode(db, cfg, client, sid, params, now)),
                     Event(s.realm, Some(client), Some(s.user), Some(sid)), now);
  }

  lemma ResetFlowOf(db: Db, realm: Id, now: Time)
    requires Inv(db, now) && realm in db.ids.realms && db.ids.realms[realm].resetFlow.Some?
    ensures FlowOf(db.ids, db.ids.realms[realm].resetFlow.value, realm)
  {
    hide KeyTable, BucketTable, AuthTable, MailTable, EventTable, SessionTable, CodeTable, TokenTable,
         LinkTable, FamiliesOk, RowsOk, Drawn, KeysOk, PeopleRefs, FlowRefs;
  }

  lemma NewAuthKeepsInv(db: Db, realm: Id, client: Id, params: AuthParams, user: Option<Id>, tab: Id, now: Time)
    requires Inv(db, now) && realm in db.ids.realms && ClientOf(db.ids, client, realm)
    requires user.Some? ==> UserOf(db.ids, user.value, realm)
    requires tab < db.supply && tab !in db.authSessions
    ensures Inv(PutAuth(db, tab, NewAuth(db, realm, client, params, user, now)), now)
  {
    hide Inv;
    if db.ids.realms[realm].resetFlow.Some? { ResetFlowOf(db, realm, now); }
    PutAuthKeepsInv(db, tab, NewAuth(db, realm, client, params, user, now), now);
  }

  lemma ReusedKeepsInv(db: Db, cfg: Config, realm: Id, client: Id, sid: Id, params: AuthParams, now: Time)
    requires Inv(db, now) && sid in db.sessions && db.sessions[sid].realm == realm && realm in db.ids.realms
    requires ClientOf(db.ids, client, realm) && UserOf(db.ids, db.sessions[sid].user, realm)
    ensures Inv(Reused(db, cfg, realm, client, sid, params, now), now)
  {
    hide Inv, NewAuth, LinkTable, Linear;
    NextIsFresh(db, now);
    DrawKeepsInv(db, 2, now);
    ExtendKeepsInv(Draw(db, 2), cfg, sid, now);
    var touched := PutSession(Draw(db, 2), sid, Extended(db, cfg, db.sessions[sid], now));
    NewAuthKeepsInv(touched, realm, client, params, Some(db.sessions[sid].user), db.supply, now);
  }

  lemma ReusedFrame(db: Db, cfg: Config, realm: Id, client: Id, sid: Id, params: AuthParams, now: Time)
    requires sid in db.sessions && db.sessions[sid].realm in db.ids.realms && realm in db.ids.realms
    ensures var after := Reused(db, cfg, realm, client, sid, params, now);
            && after.ids == db.ids && after.supply == db.supply + 2
            && sid in after.sessions && after.sessions[sid].realm == db.sessions[sid].realm
  {}

  lemma AuthorizeKeepsInv(db: Db, cfg: Config, realm: Id, client: Id, cookie: Option<Id>, params: AuthParams, now: Time)
    requires Inv(db, now)
    ensures Inv(Authorize(db, cfg, realm, client, cookie, params, now).0, now)
  {
    hide Inv, NewAuth, WithCode, LinkTable, Linear, Reused;
    if Authorize(db, cfg, realm, client, cookie, params, now).0 != db {
      if cookie.Some? && Eligible(db, cookie.value, realm, now) {
        ReusedKeepsInv(db, cfg, realm, client, cookie.value, params, now);
        ReusedFrame(db, cfg, realm, client, cookie.value, params, now);
        WithCodeKeepsInv(Reused(db, cfg, realm, client, cookie.value, params, now), cfg, client,
                         cookie.value, params, db.supply + 1, now);
      } else {
        NextIsFresh(db, now);
        DrawKeepsInv(db, 1, now);
        NewAuthKeepsInv(Draw(db, 1), realm, client, params, None, db.supply, now);
        NewAuthLocal(db, Draw(db, 1), realm, client, params, now);
      }
    }
  }

  lemma NewAuthLocal(a: Db, b: Db, realm: Id, client: Id, params: AuthParams, now: Time)
    requires realm in a.ids.realms && b.ids == a.ids
    ensures NewAuth(b, realm, client, params, None, now) == NewAuth(a, realm, client, params, None, now)
  {}

  lemma CompleteLoginKeepsInv(db: Db, cfg: Config, tab: Id, user: Id, now: Time)
    requires Inv(db, now)
    ensures Inv(CompleteLogin(db, cfg, tab, user, now).0, now)
  {
    if CompleteLogin(db, cfg, tab, user, now).0 != db {
      var auth := db.authSessions[tab];
      assert AuthRefs(db.ids, auth) && tab < db.supply by {
        hide IdentityRefs, KeyTable, BucketTable, CodeTable, MailTable, EventTable, TokenTable, RowsOk,
             LinkTable, FamiliesOk, KeysOk, RequestAllowed, CompleteLogin;
        assert MayComplete(db, tab, user, now) by { CompletionNeeds(db, cfg, tab, user, now); }
      }
      hide Inv, NewSession, WithCode, Expired;
      NewSessionUser(db, cfg, auth.realm, auth.client, user, now);
      CreateSessionKeepsInv(db, cfg, auth.realm, auth.client, user, 2, now);
      var created := PutSession(Draw(db, 2), db.supply, NewSession(db, cfg, auth.realm, auth.client, user, now));
      var row := auth.(selectedUser := Some(user), authenticated := true);
      PutAuthKeepsInv(created, tab, row, now);
      WithCodeKeepsInv(PutAuth(created, tab, row), cfg, auth.client, db.supply, auth.params, db.supply + 1, now);
    }
  }

  lemma CompletionNeeds(db: Db, cfg: Config, tab: Id, user: Id, now: Time)
    requires CompleteLogin(db, cfg, tab, user, now).0 != db
    ensures MayComplete(db, tab, user, now)
  {}

  // ---------------------------------------------------------------- logout

  lemma HintLogoutKeepsInv(db: Db, realm: Id, raw: Jwt, audience: Option<string>, now: Time)
    requires Inv(db, now)
    ensures Inv(LogoutByHint(db, realm, raw, audience, now).0, now)
  {
    hide Inv, Decodes, EnabledAudience, Revoke;
    if LogoutByHint(db, realm, raw, audience, now).0 != db {
      RevokeAndLogKeepsInv(db, raw.claims.sid, realm, ClientNamed(db, realm, raw.claims.azp), now);
    }
  }

  lemma RefreshLogoutKeepsInv(db: Db, realm: Id, client: Id, raw: Jwt, now: Time)
    requires Inv(db, now)
    ensures Inv(LogoutByRefresh(db, realm, client, raw, now).0, now)
  {
    hide Inv, Decodes, EnabledAudience, Revoke;
    if LogoutByRefresh(db, realm, client, raw, now).0 != db {
      RevokeAndLogKeepsInv(db, raw.claims.sid, realm, Some(client), now);
    }
  }
}

/** Cleanup cannot be observed: no reply of the server depends on whether, when
    or in what batches expired state was collected.

    `Sim(a, b, now)` relates a database `a` that was never cleaned to one `b` that
    was: `b` is `a` without some rows that can no longer matter at `now`. */
module Observation {
  import opened Prelude
  import opened Tables
  import opened Protocol
  import opened Invariants
  import opened Retention
  import opened Steps

  // ---------------------------------------------------------------- the simulation relation

  predicate Same(x: RefreshToken, y: RefreshToken) {
    y == x.(replacedBy := y.replacedBy)
  }

  /** Sessions that have not expired are the same; expired ones are of no account. */
  ghost predicate SessionsSim(a: map<Id, UserSession>, b: map<Id, UserSession>, now: Time) {
    && (forall s | s in a && !Expired(a[s], now) :: s in b && b[s] == a[s])
    && (forall s | s in b && !Expired(b[s], now) :: s in a && b[s] == a[s])
  }

  predicate LiveIn(sessions: map<Id, UserSession>, s: Id, now: Time) {
    s in sessions && Live(sessions[s], now)
  }

  predicate CodeLost(sessions: map<Id, UserSession>, row: Code, now: Time) {
    row.expiresAt <= now || !LiveIn(sessions, row.session, now)
  }

  predicate TokenLost(sessions: map<Id, UserSession>, row: RefreshToken, now: Time) {
    row.expiresAt <= now || row.revokedAt.Some? || !LiveIn(sessions, row.session, now)
  }

  ghost predicate CodesSim(sessions: map<Id, UserSession>, a: map<Id, Code>, b: map<Id, Code>, now: Time) {
    && (forall c | c in b :: c in a && b[c] == a[c])
    && (forall c | c in a && c !in b :: CodeLost(sessions, a[c], now))
  }

  ghost predicate TokensSim(sessions: map<Id, UserSession>, a: map<Id, RefreshToken>,
                            b: map<Id, RefreshToken>, now: Time)
  {
    && (forall t | t in b :: t in a && Same(a[t], b[t]))
    && (forall t | t in a && t !in b :: TokenLost(sessions, a[t], now))
  }

  ghost predicate AuthsSim(a: map<Id, AuthSession>, b: map<Id, AuthSession>, now: Time) {
    && (forall x | x in b :: x in a && b[x] == a[x])
    && (forall x | x in a && x !in b :: a[x].expiresAt <= now)
  }

  ghost predicate BucketsSim(a: map<BucketKey, Bucket>, b: map<BucketKey, Bucket>, now: Time) {
    && (forall x | x in b :: x in a && b[x] == a[x])
    && (forall x | x in a && x !in b :: a[x].expiresAt <= now)
  }

  ghost predicate Sim(a: Db, b: Db, now: Time) {
    && b.ids == a.ids && b.keys == a.keys && b.supply == a.supply
    && SessionsSim(a.sessions, b.sessions, now) && CodesSim(a.sessions, a.codes, b.codes, now)
    && TokensSim(a.sessions, a.tokens, b.tokens, now)
    && AuthsSim(a.authSessions, b.authSessions, now) && BucketsSim(a.buckets, b.buckets, now)
  }

  lemma SimItself(db: Db, now: Time)
    ensures Sim(db, db, now)
  {}

  lemma SimAdvances(a: Db, b: Db, since: Time, now: Time)
    requires Sim(a, b, since) && since <= now
    ensures Sim(a, b, now)
  {}

  /** A batch removes only rows that no longer matter. */
  lemma BatchSim(a: Db, b: Db, cutoff: Time, batch: Batch, now: Time)
    requires Sim(a, b, now) && cutoff <= now && BatchFits(b, cutoff, batch)
    ensures Sim(a, DropBatch(b, batch), now)
  {
    hide UnlinkEvents, UnlinkMails;
  }

  // ---------------------------------------------------------------- single statements

  lemma DrawSim(a: Db, b: Db, n: nat, now: Time)
    requires Sim(a, b, now)
    ensures Sim(Draw(a, n), Draw(b, n), now)
  {
    hide SessionsSim, CodesSim, TokensSim, AuthsSim, BucketsSim;
  }

  lemma LogEventSim(a: Db, b: Db, row: Event, now: Time)
    requires Sim(a, b, now)
    ensures Sim(LogEvent(a, row), LogEvent(b, row), now)
  {
    hide SessionsSim, CodesSim, TokensSim, AuthsSim, BucketsSim;
  }

  lemma PutAuthSim(a: Db, b: Db, x: Id, row: AuthSession, now: Time)
    requires Sim(a, b, now)
    ensures Sim(PutAuth(a, x, row), PutAuth(b, x, row), now)
  {
    hide SessionsSim, CodesSim, TokensSim, BucketsSim;
  }

  lemma PutCodeSim(a: Db, b: Db, c: Id, row: Code, now: Time)
    requires Sim(a, b, now)
    ensures Sim(PutCode(a, c, row), PutCode(b, c, row), now)
  {
    hide SessionsSim, TokensSim, AuthsSim, BucketsSim, CodeLost;
  }

  lemma PutTokenSim(a: Db, b: Db, t: Id, x: RefreshToken, y: RefreshToken, now: Time)
    requires Sim(a, b, now) && Same(x, y)
    ensures Sim(PutToken(a, t, x), PutToken(b, t, y), now)
  {
    hide SessionsSim, CodesSim, AuthsSim, BucketsSim, TokenLost;
  }

  /** A session that is live, or has no rows yet, may be written. */
  lemma PutSessionSim(a: Db, b: Db, s: Id, row: UserSession, now: Time)
    requires Sim(a, b, now)
    requires s in a.sessions ==> Live(a.sessions[s], now)
    requires s !in a.sessions ==>
      (forall c | c in a.codes :: a.codes[c].session != s) && (forall t | t in a.tokens :: a.tokens[t].session != s)
    ensures Sim(PutSession(a, s, row), PutSession(b, s, row), now)
  {
    hide AuthsSim, BucketsSim, SessionsSim, CodesSim, TokensSim;
    SessionsPut(a.sessions, b.sessions, s, row, now);
    CodesUnderPut(a.sessions, a.codes, b.codes, s, row, now);
    TokensUnderPut(a.sessions, a.tokens, b.tokens, s, row, now);
  }

  lemma SessionsPut(a: map<Id, UserSession>, b: map<Id, UserSession>, s: Id, row: UserSession, now: Time)
    requires SessionsSim(a, b, now)
    ensures SessionsSim(a[s := row], b[s := row], now)
  {
    hide Expired;
  }

  lemma CodesUnderPut(sessions: map<Id, UserSession>, a: map<Id, Code>, b: map<Id, Code>, s: Id, row: UserSession,
                      now: Time)
    requires CodesSim(sessions, a, b, now)
    requires s in sessions ==> Live(sessions[s], now)
    requires s !in sessions ==> forall c | c in a :: a[c].session != s
    ensures CodesSim(sessions[s := row], a, b, now)
  {
    hide Live;
  }

  lemma TokensUnderPut(sessions: map<Id, UserSession>, a: map<Id, RefreshToken>, b: map<Id, RefreshToken>,
                       s: Id, row: UserSession, now: Time)
    requires TokensSim(sessions, a, b, now)
    requires s in sessions ==> Live(sessions[s], now)
    requires s !in sessions ==> forall t | t in a :: a[t].session != s
    ensures TokensSim(sessions[s := row], a, b, now)
  {
    hide Live, Same;
  }

  lemma RevokedCodesSim(sessions: map<Id, UserSession>, sid: Id, at: Time, a: map<Id, Code>, b: map<Id, Code>,
                        now: Time)
    requires CodesSim(sessions, a, b, now) && sid in sessions
    ensures CodesSim(sessions[sid := sessions[sid].(revokedAt := Some(at))], a, b, now)
  {}

  lemma RevokedTokensSim(sessions: map<Id, UserSession>, sid: Id, realm: Id, at: Time,
                         a: map<Id, RefreshToken>, b: map<Id, RefreshToken>, now: Time)
    requires TokensSim(sessions, a, b, now) && sid in sessions
    ensures TokensSim(sessions[sid := sessions[sid].(revokedAt := Some(at))],
                      Swept(a, realm, sid, at), Swept(b, realm, sid, at), now)
  {
    hide Expired;
  }

  lemma RevokedSessionsSim(a: map<Id, UserSession>, b: map<Id, UserSession>, sid: Id, row: UserSession, now: Time)
    requires SessionsSim(a, b, now) && sid in b && !Expired(b[sid], now)
    ensures SessionsSim(a[sid := row], b[sid := row], now) && sid in a && b[sid] == a[sid]
  {}

  lemma RevokeSim(a: Db, b: Db, sid: Id, realm: Id, now: Time)
    requires Sim(a, b, now) && sid in b.sessions && !Expired(b.sessions[sid], now)
    ensures Sim(Revoke(a, sid, realm, now), Revoke(b, sid, realm, now), now)
  {
    hide AuthsSim, BucketsSim, SessionsSim, CodesSim, TokensSim, Swept, Revoke;
    var s := b.sessions[sid];
    var at := if s.revokedAt.Some? then s.revokedAt.value else now;
    var row := s.(revokedAt := Some(at));
    RevokedSessionsSim(a.sessions, b.sessions, sid, row, now);
    if s.realm == realm {
      RevokedState(a, sid, realm, now);
      RevokedState(b, sid, realm, now);
      RevokedCodesSim(a.sessions, sid, at, a.codes, b.codes, now);
      RevokedTokensSim(a.sessions, sid, realm, at, a.tokens, b.tokens, now);
      var x, y := a.(sessions := a.sessions[sid := row], tokens := Swept(a.tokens, realm, sid, at)),
                  b.(sessions := b.sessions[sid := row], tokens := Swept(b.tokens, realm, sid, at));
      assert Revoke(a, sid, realm, now) == x;
      assert Revoke(b, sid, realm, now) == y;
      assert Sim(x, y, now);
    } else {
      NotRevoked(a, sid, realm, now);
      NotRevoked(b, sid, realm, now);
    }
  }

  // ---------------------------------------------------------------- queries agree

  lemma EligibleAgrees(a: Db, b: Db, sid: Id, realm: Id, now: Time)
    requires Sim(a, b, now)
    ensures Eligible(b, sid, realm, now) == Eligible(a, sid, realm, now)
    ensures Eligible(a, sid, realm, now) ==> sid in b.sessions && b.sessions[sid] == a.sessions[sid]
  {
    hide CodesSim, TokensSim, AuthsSim, BucketsSim;
  }

  lemma NamesAgree(a: Db, b: Db, realm: Id, client: Id, audience: string)
    requires b.ids == a.ids
    ensures Authenticated(b, realm, client) == Authenticated(a, realm, client)
    ensures EnabledClient(b, realm, client) == EnabledClient(a, realm, client)
    ensures EnabledAudience(b, realm, audience) == EnabledAudience(a, realm, audience)
    ensures ClientNamed(b, realm, audience) == ClientNamed(a, realm, audience)
  {
    assert forall c :: EnabledClient(b, realm, c) == EnabledClient(a, realm, c);
  }

  lemma DecodingAgrees(a: Db, b: Db, raw: Jwt, realm: Id, audience: string, typ: TokenType, checkExpiry: bool,
                       now: Time)
    requires b.ids == a.ids && b.keys == a.keys
    ensures Decodes(b, raw, realm, audience, typ, checkExpiry, now)
            == Decodes(a, raw, realm, audience, typ, checkExpiry, now)
  {}

  /** The row of a token that would still be accepted is in both databases. */
  lemma MatchingRowKept(a: Db, b: Db, raw: Jwt, realm: Id, client: Id, now: Time)
    requires Sim(a, b, now) && HasToken(a, raw, realm, client)
    requires var t := raw.claims.jti;
             && Eligible(a, a.tokens[t].session, realm, now)
             && RefreshMatches(a.tokens[t], raw.claims, a.tokens[t].session, a.sessions[a.tokens[t].session], now)
    ensures HasToken(b, raw, realm, client)
  {
    hide CodesSim, AuthsSim, BucketsSim, IdentitiesEnabled;
  }

  lemma RowMatchesAgrees(a: Db, b: Db, raw: Jwt, realm: Id, client: Id, now: Time)
    requires Sim(a, b, now) && Eligible(a, raw.claims.sid, realm, now)
    ensures UnusedRowMatches(b, raw, realm, client, now) == UnusedRowMatches(a, raw, realm, client, now)
  {
    EligibleAgrees(a, b, raw.claims.sid, realm, now);
    if UnusedRowMatches(a, raw, realm, client, now) {
      MatchingRowKept(a, b, raw, realm, client, now);
    }
    hide CodesSim, AuthsSim, BucketsSim, IdentitiesEnabled, Expired, TokenLost;
  }

  /** Token verification answers the same. */
  lemma VerificationAgrees(a: Db, b: Db, raw: Jwt, realm: Id, audience: string, typ: TokenType, now: Time)
    requires Sim(a, b, now)
    ensures Verifies(b, raw, realm, audience, typ, now) == Verifies(a, raw, realm, audience, typ, now)
  {
    hide Sim, Decodes, Eligible, EnabledAudience, UnusedRowMatches;
    assert b.ids == a.ids && b.keys == a.keys by { SameIdentities(a, b, now); }
    NamesAgree(a, b, realm, 0, audience);
    DecodingAgrees(a, b, raw, realm, audience, typ, true, now);
    EligibleAgrees(a, b, raw.claims.sid, realm, now);
    if Eligible(a, raw.claims.sid, realm, now) {
      forall c ensures UnusedRowMatches(b, raw, realm, c, now) == UnusedRowMatches(a, raw, realm, c, now) {
        RowMatchesAgrees(a, b, raw, realm, c, now);
      }
    }
  }

  lemma SameIdentities(a: Db, b: Db, now: Time)
    requires Sim(a, b, now)
    ensures b.ids == a.ids && b.keys == a.keys && b.supply == a.supply
  {}

  lemma HintAgrees(a: Db, b: Db, raw: Jwt, realm: Id, audience: string, now: Time)
    requires Sim(a, b, now)
    ensures HintVerifies(b, raw, realm, audience, now) == HintVerifies(a, raw, realm, audience, now)
    ensures HintVerifies(a, raw, realm, audience, now) ==>
      raw.claims.sid in b.sessions && b.sessions[raw.claims.sid] == a.sessions[raw.claims.sid]
  {
    hide Decodes, EnabledAudience, CodesSim, TokensSim, AuthsSim, BucketsSim;
    NamesAgree(a, b, realm, 0, audience);
    DecodingAgrees(a, b, raw, realm, audience, ID, false, now);
  }

  // ---------------------------------------------------------------- token grants

  /** Two outcomes of one request cannot be told apart, now or later. */
  ghost predicate Agree(x: (Db, Reply), y: (Db, Reply), now: Time) {
    y.1 == x.1 && Sim(x.0, y.0, now)
  }

  lemma AddRowSim(a: Db, b: Db, t: Id, row: RefreshToken, parent: Option<Id>, now: Time)
    requires Sim(a, b, now)
    requires parent.Some? ==> parent.value in a.tokens && parent.value in b.tokens
    ensures Sim(AddRow(a, t, row, parent), AddRow(b, t, row, parent), now)
  {
    if parent.Some? {
      var p := parent.value;
      ParentSame(a, b, p, now);
      hide Sim;
      PutTokenSim(a, b, t, row, row, now);
      PutTokenSim(PutToken(a, t, row), PutToken(b, t, row), p, a.tokens[p].(replacedBy := Some(t)),
                  b.tokens[p].(replacedBy := Some(t)), now);
    } else {
      PutTokenSim(a, b, t, row, row, now);
    }
  }

  lemma ParentSame(a: Db, b: Db, p: Id, now: Time)
    requires Sim(a, b, now) && p in b.tokens
    ensures p in a.tokens && Same(a.tokens[p], b.tokens[p])
  {
    hide SessionsSim, CodesSim, AuthsSim, BucketsSim, TokenLost;
  }

  lemma NewRefreshAgrees(a: Db, b: Db, cfg: Config, realm: Id, client: Id, sid: Id, scope: Scope,
                         parent: Option<Id>, now: Time)
    requires Sim(a, b, now) && MayIssue(a, realm, client, sid, now) && |ActiveKeys(a.keys, realm)| == 1
    requires parent.Some? ==> parent.value in a.tokens && parent.value in b.tokens
    ensures MayIssue(b, realm, client, sid, now) && |ActiveKeys(b.keys, realm)| == 1
    ensures NewRefresh(b, cfg, realm, client, sid, scope, parent, now)
            == NewRefresh(a, cfg, realm, client, sid, scope, parent, now)
  {
    hide SessionsSim, CodesSim, TokensSim, AuthsSim, BucketsSim, ActiveKeys, Min, After;
    EligibleAgrees(a, b, sid, realm, now);
    if parent.Some? { ParentSame(a, b, parent.value, now); }
  }

  /** Issuing from both databases gives the same response, or the same refusal. */
  lemma IssueSim(a: Db, b: Db, cfg: Config, realm: Id, client: Id, sid: Id, scope: Scope,
                 nonce: Option<string>, parent: Option<Id>, now: Time)
    requires Sim(a, b, now)
    requires parent.Some? ==> parent.value in a.tokens && parent.value in b.tokens
    ensures var x := IssueTokens(a, cfg, realm, client, sid, scope, nonce, parent, now);
            var y := IssueTokens(b, cfg, realm, client, sid, scope, nonce, parent, now);
            && (x.NotIssued? ==> y == x)
            && (x.Issued? ==> y.Issued? && y.response == x.response && Sim(x.db, y.db, now)
                              && sid in x.db.sessions && sid in y.db.sessions
                              && x.db.sessions[sid].user == a.sessions[sid].user
                              && y.db.sessions[sid].user == a.sessions[sid].user)
  {
    hide Sim, ActiveKeys, NewRefresh, Min, After, AddRow, OnlyRows, Live, Floor;
    SameIdentities(a, b, now);
    EligibleAgrees(a, b, sid, realm, now);
    NamesAgree(a, b, realm, client, "");
    if MayIssue(a, realm, client, sid, now) && |ActiveKeys(a.keys, realm)| == 1 {
      NewRefreshAgrees(a, b, cfg, realm, client, sid, scope, parent, now);
      var row := NewRefresh(a, cfg, realm, client, sid, scope, parent, now);
      AddRowSim(a, b, a.supply + 2, row, parent, now);
      DrawSim(AddRow(a, a.supply + 2, row, parent), AddRow(b, a.supply + 2, row, parent), 4, now);
      AddRowFrame(a, a.supply + 2, row, parent);
      AddRowFrame(b, a.supply + 2, row, parent);
    }
  }

  lemma AddRowFrame(db: Db, t: Id, row: RefreshToken, parent: Option<Id>)
    requires parent.Some? ==> parent.value in db.tokens
    ensures AddRow(db, t, row, parent) == db.(tokens := AddRow(db, t, row, parent).tokens)
  {}

  lemma ConsumeSim(a: Db, b: Db, cfg: Config, t: Id, now: Time)
    requires Sim(a, b, now) && t in a.tokens && t in b.tokens
    requires a.tokens[t].session in a.sessions && Live(a.sessions[a.tokens[t].session], now)
    requires a.tokens[t].session in b.sessions && a.sessions[a.tokens[t].session].realm in a.ids.realms
    ensures b.tokens[t].session == a.tokens[t].session
    ensures b.sessions[b.tokens[t].session].realm in b.ids.realms
    ensures Sim(ConsumeAndExtend(a, cfg, t, now), ConsumeAndExtend(b, cfg, t, now), now)
  {
    hide CodesSim, AuthsSim, BucketsSim, TokenLost, Min, After, TokensSim;
    ParentSame(a, b, t, now);
    var sid := a.tokens[t].session;
    var row := Extended(a, cfg, a.sessions[sid], now);
    assert Extended(b, cfg, b.sessions[sid], now) == row;
    hide Sim, Extended;
    PutTokenSim(a, b, t, a.tokens[t].(usedAt := Some(now)), b.tokens[t].(usedAt := Some(now)), now);
    PutSessionSim(PutToken(a, t, a.tokens[t].(usedAt := Some(now))),
                  PutToken(b, t, b.tokens[t].(usedAt := Some(now))), sid, row, now);
  }

  lemma RevokeAndLogSim(a: Db, b: Db, sid: Id, realm: Id, row: Event, now: Time)
    requires Sim(a, b, now) && sid in b.sessions && !Expired(b.sessions[sid], now)
    ensures Sim(LogEvent(Revoke(a, sid, realm, now), row), LogEvent(Revoke(b, sid, realm, now), row), now)
  {
    hide Sim, Revoke;
    RevokeSim(a, b, sid, realm, now);
    LogEventSim(Revoke(a, sid, realm, now), Revoke(b, sid, realm, now), row, now);
  }

  /** The checks of a refresh that precede the look at `used_at`. */
  predicate RefreshReady(db: Db, realm: Id, client: Id, raw: Jwt, now: Time) {
    var t, sid := raw.claims.jti, raw.claims.sid;
    && Authenticated(db, realm, client)
    && Decodes(db, raw, realm, db.ids.clients[client].clientId, Refresh, true, now)
    && HasToken(db, raw, realm, client) && db.tokens[t].session == sid && Eligible(db, sid, realm, now)
    && RefreshMatches(db.tokens[t], raw.claims, sid, db.sessions[sid], now)
  }

  lemma RefreshReadyAgrees(a: Db, b: Db, realm: Id, client: Id, raw: Jwt, now: Time)
    requires Sim(a, b, now)
    ensures RefreshReady(b, realm, client, raw, now) == RefreshReady(a, realm, client, raw, now)
    ensures RefreshReady(a, realm, client, raw, now) ==>
      var t, sid := raw.claims.jti, raw.claims.sid;
      && t in a.tokens && t in b.tokens && Same(a.tokens[t], b.tokens[t])
      && sid in a.sessions && sid in b.sessions && b.sessions[sid] == a.sessions[sid]
  {
    hide Sim, Decodes, IdentitiesEnabled, Live, RefreshMatches;
    SameIdentities(a, b, now);
    EligibleAgrees(a, b, raw.claims.sid, realm, now);
    NamesAgree(a, b, realm, client, "");
    if Authenticated(a, realm, client) {
      DecodingAgrees(a, b, raw, realm, a.ids.clients[client].clientId, Refresh, true, now);
    }
    if RefreshReady(a, realm, client, raw, now) {
      MatchingRowKept(a, b, raw, realm, client, now);
    }
    if raw.claims.jti in b.tokens {
      ParentSame(a, b, raw.claims.jti, now);
      if raw.claims.sid in a.sessions {
        MatchingIgnoresLink(a.tokens[raw.claims.jti], b.tokens[raw.claims.jti], raw.claims, raw.claims.sid,
                            a.sessions[raw.claims.sid], now);
      }
    }
  }

  lemma MatchingIgnoresLink(x: RefreshToken, y: RefreshToken, claims: Claims, sid: Id, session: UserSession, now: Time)
    requires Same(x, y)
    ensures RefreshMatches(y, claims, sid, session, now) == RefreshMatches(x, claims, sid, session, now)
  {}

  lemma RefreshRefusals(db: Db, cfg: Config, realm: Id, client: Id, raw: Jwt, narrowed: Option<Scope>, now: Time)
    requires !RefreshReady(db, realm, client, raw, now)
    ensures RefreshGrant(db, cfg, realm, client, raw, narrowed, now)
            == (db, Refused(if Authenticated(db, realm, client) then InvalidGrant else InvalidClient))
  {
    hide Decodes, RefreshMatches, IssueTokens, ConsumeAndExtend, Revoke, Narrows, Distinct, IdentitiesEnabled, Live;
  }

  lemma RefreshAgrees(a: Db, b: Db, cfg: Config, realm: Id, client: Id, raw: Jwt, narrowed: Option<Scope>, now: Time)
    requires Sim(a, b, now)
    ensures Agree(RefreshGrant(a, cfg, realm, client, raw, narrowed, now),
                  RefreshGrant(b, cfg, realm, client, raw, narrowed, now), now)
  {
    hide Sim, Eligible, Decodes, RefreshMatches, IssueTokens, ConsumeAndExtend, Revoke, Narrows, Distinct;
    SameIdentities(a, b, now);
    RefreshReadyAgrees(a, b, realm, client, raw, now);
    NamesAgree(a, b, realm, client, "");
    if !RefreshReady(a, realm, client, raw, now) {
      RefreshRefusals(a, cfg, realm, client, raw, narrowed, now);
      RefreshRefusals(b, cfg, realm, client, raw, narrowed, now);
    } else {
      ReadyRefreshAgrees(a, b, cfg, realm, client, raw, narrowed, now);
    }
  }

  lemma ReadyRefreshAgrees(a: Db, b: Db, cfg: Config, realm: Id, client: Id, raw: Jwt, narrowed: Option<Scope>,
                           now: Time)
    requires Sim(a, b, now)
    requires RefreshReady(a, realm, client, raw, now) && RefreshReady(b, realm, client, raw, now)
    ensures Agree(RefreshGrant(a, cfg, realm, client, raw, narrowed, now),
                  RefreshGrant(b, cfg, realm, client, raw, narrowed, now), now)
  {
    hide Sim, Decodes, RefreshMatches, IssueTokens, ConsumeAndExtend, Revoke, Narrows, Distinct, Authenticated,
         Expired;
    var t, sid := raw.claims.jti, raw.claims.sid;
    SameIdentities(a, b, now);
    RefreshReadyAgrees(a, b, realm, client, raw, now);
    if a.tokens[t].usedAt.Some? {
      RevokeAndLogSim(a, b, sid, realm, Event(realm, Some(client), Some(a.sessions[sid].user), Some(sid)), now);
    } else {
      ConsumeSim(a, b, cfg, t, now);
      var requested := if narrowed.Some? then narrowed.value else a.tokens[t].scope;
      var x, y := ConsumeAndExtend(a, cfg, t, now), ConsumeAndExtend(b, cfg, t, now);
      ConsumeFrame(a, cfg, t, now);
      ConsumeFrame(b, cfg, t, now);
      IssueSim(x, y, cfg, realm, client, sid, Distinct(requested), None, Some(t), now);
      var i := IssueTokens(x, cfg, realm, client, sid, Distinct(requested), None, Some(t), now);
      var j := IssueTokens(y, cfg, realm, client, sid, Distinct(requested), None, Some(t), now);
      if Narrows(requested, a.tokens[t].scope) && i.Issued? {
        LogEventSim(i.db, j.db, Event(realm, Some(client), Some(a.sessions[sid].user), Some(sid)), now);
      }
    }
  }

  lemma ConsumeFrame(db: Db, cfg: Config, t: Id, now: Time)
    requires t in db.tokens && db.tokens[t].session in db.sessions
    requires db.sessions[db.tokens[t].session].realm in db.ids.realms
    ensures var after := ConsumeAndExtend(db, cfg, t, now);
            && t in after.tokens && db.tokens[t].session in after.sessions
            && after.sessions[db.tokens[t].session].user == db.sessions[db.tokens[t].session].user
  {}

  /** A code that is accepted is in both databases. */
  lemma CodeAcceptedAgrees(a: Db, b: Db, realm: Id, client: Id, raw: Id, uri: string,
                           verifier: Option<string>, now: Time)
    requires Sim(a, b, now)
    ensures CodeAccepted(b, realm, client, raw, uri, verifier, now)
            == CodeAccepted(a, realm, client, raw, uri, verifier, now)
    ensures CodeAccepted(a, realm, client, raw, uri, verifier, now) ==> raw in b.codes && b.codes[raw] == a.codes[raw]
  {
    hide ProofAccepted, TokensSim, AuthsSim, BucketsSim, IdentitiesEnabled;
    if raw in a.codes { EligibleAgrees(a, b, a.codes[raw].session, realm, now); }
    NamesAgree(a, b, realm, client, "");
  }

  lemma ExchangeAgrees(a: Db, b: Db, cfg: Config, realm: Id, client: Id, raw: Id, uri: string,
                       verifier: Option<string>, now: Time)
    requires Sim(a, b, now)
    ensures Agree(ExchangeGrant(a, cfg, realm, client, raw, uri, verifier, now),
                  ExchangeGrant(b, cfg, realm, client, raw, uri, verifier, now), now)
  {
    hide Sim, CodeAccepted, IssueTokens, Authenticated;
    SameIdentities(a, b, now);
    NamesAgree(a, b, realm, client, "");
    CodeAcceptedAgrees(a, b, realm, client, raw, uri, verifier, now);
    if CodeAccepted(a, realm, client, raw, uri, verifier, now) {
      CodePresent(a, realm, client, raw, uri, verifier, now);
      var code := a.codes[raw];
      var row := code.(consumedAt := Some(now));
      PutCodeSim(a, b, raw, row, now);
      var x, y := PutCode(a, raw, row), PutCode(b, raw, row);
      IssueSim(x, y, cfg, realm, client, code.session, code.params.scope, code.params.nonce, None, now);
      var i := IssueTokens(x, cfg, realm, client, code.session, code.params.scope, code.params.nonce, None, now);
      var j := IssueTokens(y, cfg, realm, client, code.session, code.params.scope, code.params.nonce, None, now);
      if i.Issued? {
        LogEventSim(i.db, j.db, Event(realm, Some(client), Some(code.user), Some(code.session)), now);
      }
    }
  }

  lemma CodePresent(db: Db, realm: Id, client: Id, raw: Id, uri: string, verifier: Option<string>, now: Time)
    requires CodeAccepted(db, realm, client, raw, uri, verifier, now)
    ensures raw in db.codes
  {}

  /** The next identifier has no session and no session rows. */
  ghost predicate NextIsUnused(db: Db) {
    && db.supply !in db.sessions
    && (forall c | c in db.codes :: db.codes[c].session != db.supply)
    && (forall t | t in db.tokens :: db.tokens[t].session != db.supply)
  }

  lemma InvNextIsUnused(db: Db, now: Time)
    requires Inv(db, now)
    ensures NextIsUnused(db)
  {
    hide IdentityRefs, KeyTable, BucketTable, AuthTable, MailTable, EventTable, SessionTable, LinkTable,
         FamiliesOk, RowsOk, KeysOk;
    forall c | c in db.codes ensures db.codes[c].session != db.supply {
      assert CodeRefs(db.ids, db.sessions, db.codes[c]);
    }
    forall t | t in db.tokens ensures db.tokens[t].session != db.supply {
      assert TokenRefs(db.ids, db.sessions, db.tokens[t]);
    }
  }

  lemma CreateSessionSim(a: Db, b: Db, cfg: Config, realm: Id, client: Id, user: Id, n: nat, now: Time)
    requires Sim(a, b, now) && NextIsUnused(a) && realm in a.ids.realms
    ensures realm in b.ids.realms
    ensures NewSession(b, cfg, realm, client, user, now) == NewSession(a, cfg, realm, client, user, now)
    ensures Sim(PutSession(Draw(a, n), a.supply, NewSession(a, cfg, realm, client, user, now)),
                PutSession(Draw(b, n), b.supply, NewSession(b, cfg, realm, client, user, now)), now)
  {
    SameIdentities(a, b, now);
    assert NewSession(b, cfg, realm, client, user, now) == NewSession(a, cfg, realm, client, user, now) by {
      hide Sim, Min, After;
    }
    hide Sim, NewSession;
    DrawSim(a, b, n, now);
    PutSessionSim(Draw(a, n), Draw(b, n), a.supply, NewSession(a, cfg, realm, client, user, now), now);
  }

  lemma PasswordAgrees(a: Db, b: Db, cfg: Config, realm: Id, client: Id, user: Id, scope: Scope, now: Time)
    requires Sim(a, b, now) && NextIsUnused(a)
    ensures Agree(PasswordGrant(a, cfg, realm, client, user, scope, now),
                  PasswordGrant(b, cfg, realm, client, user, scope, now), now)
  {
    hide Sim, IssueTokens, NewSession, Distinct, NextIsUnused;
    SameIdentities(a, b, now);
    NamesAgree(a, b, realm, client, "");
    if MayCreateSession(a, realm, client, user) {
      CreateSessionSim(a, b, cfg, realm, client, user, 1, now);
      var row := NewSession(a, cfg, realm, client, user, now);
      var x, y := PutSession(Draw(a, 1), a.supply, row), PutSession(Draw(b, 1), b.supply, row);
      IssueSim(x, y, cfg, realm, client, a.supply, Distinct(scope), None, None, now);
      var i := IssueTokens(x, cfg, realm, client, a.supply, Distinct(scope), None, None, now);
      var j := IssueTokens(y, cfg, realm, client, a.supply, Distinct(scope), None, None, now);
      if i.Issued? {
        LogEventSim(i.db, j.db, Event(realm, Some(client), Some(user), Some(a.supply)), now);
      }
    }
  }

  // ---------------------------------------------------------------- browser login and logout

  lemma WithCodeSim(a: Db, b: Db, cfg: Config, client: Id, sid: Id, params: AuthParams, c: Id, now: Time)
    requires Sim(a, b, now) && sid in a.sessions && sid in b.sessions && b.sessions[sid] == a.sessions[sid]
    requires a.sessions[sid].realm in a.ids.realms && a.sessions[sid].realm in b.ids.realms
    ensures Sim(WithCode(a, cfg, client, sid, params, c, now), WithCode(b, cfg, client, sid, params, c, now), now)
  {
    SameIdentities(a, b, now);
    var row := NewCode(a, cfg, client, sid, params, now);
    assert NewCode(b, cfg, client, sid, params, now) == row by { hide Sim, After; }
    hide Sim, NewCode;
    var s := a.sessions[sid];
    PutCodeSim(a, b, c, row, now);
    LogEventSim(PutCode(a, c, row), PutCode(b, c, row), Event(s.realm, Some(client), Some(s.user), Some(sid)), now);
  }

  lemma ReusedSim(a: Db, b: Db, cfg: Config, realm: Id, client: Id, sid: Id, params: AuthParams, now: Time)
    requires Sim(a, b, now) && Eligible(a, sid, realm, now)
    ensures Eligible(b, sid, realm, now)
    ensures Sim(Reused(a, cfg, realm, client, sid, params, now), Reused(b, cfg, realm, client, sid, params, now), now)
  {
    SameIdentities(a, b, now);
    EligibleAgrees(a, b, sid, realm, now);
    var row := Extended(a, cfg, a.sessions[sid], now);
    var auth := NewAuth(a, realm, client, params, Some(a.sessions[sid].user), now);
    assert Extended(b, cfg, b.sessions[sid], now) == row by { hide Sim, Min, After; }
    hide Sim, Extended, IdentitiesEnabled;
    DrawSim(a, b, 2, now);
    PutSessionSim(Draw(a, 2), Draw(b, 2), sid, row, now);
    var x, y := PutSession(Draw(a, 2), sid, row), PutSession(Draw(b, 2), sid, row);
    PutAuthSim(x, y, a.supply, auth, now);
  }

  lemma RequestAllowedAgrees(a: Db, b: Db, realm: Id, client: Id, params: AuthParams)
    requires b.ids == a.ids
    ensures RequestAllowed(b, realm, client, params) == RequestAllowed(a, realm, client, params)
  {}

  lemma AuthorizeAgrees(a: Db, b: Db, cfg: Config, realm: Id, client: Id, cookie: Option<Id>, params: AuthParams,
                        now: Time)
    requires Sim(a, b, now)
    ensures Agree(Authorize(a, cfg, realm, client, cookie, params, now),
                  Authorize(b, cfg, realm, client, cookie, params, now), now)
  {
    hide Sim, RequestAllowed, Reused, WithCode, NewAuth, Live;
    SameIdentities(a, b, now);
    RequestAllowedAgrees(a, b, realm, client, params);
    if RequestAllowed(a, realm, client, params) {
      AllowedIsServed(a, realm, client, params);
      if cookie.Some? { EligibleAgrees(a, b, cookie.value, realm, now); }
      if cookie.Some? && Eligible(a, cookie.value, realm, now) {
        var x := Reused(a, cfg, realm, client, cookie.value, params, now);
        ReusedSim(a, b, cfg, realm, client, cookie.value, params, now);
        var y := Reused(b, cfg, realm, client, cookie.value, params, now);
        SameIdentities(x, y, now);
        EligibleAgrees(x, y, cookie.value, realm, now);
        if Eligible(x, cookie.value, realm, now) {
          WithCodeSim(x, y, cfg, client, cookie.value, params, a.supply + 1, now);
        }
      } else {
        NewAuthLocal(a, b, realm, client, params, now);
        DrawSim(a, b, 1, now);
        PutAuthSim(Draw(a, 1), Draw(b, 1), a.supply, NewAuth(a, realm, client, params, None, now), now);
      }
    }
  }

  lemma AllowedIsServed(db: Db, realm: Id, client: Id, params: AuthParams)
    requires RequestAllowed(db, realm, client, params)
    ensures realm in db.ids.realms
  {}

  lemma CompletionAgrees(a: Db, b: Db, tab: Id, user: Id, now: Time)
    requires Sim(a, b, now)
    ensures MayComplete(b, tab, user, now) == MayComplete(a, tab, user, now)
    ensures MayComplete(a, tab, user, now) ==> tab in b.authSessions && b.authSessions[tab] == a.authSessions[tab]
  {
    hide SessionsSim, CodesSim, TokensSim, BucketsSim, RequestAllowed;
    if tab in a.authSessions {
      RequestAllowedAgrees(a, b, a.authSessions[tab].realm, a.authSessions[tab].client, a.authSessions[tab].params);
    }
  }

  lemma CompleteLoginAgrees(a: Db, b: Db, cfg: Config, tab: Id, user: Id, now: Time)
    requires Sim(a, b, now) && NextIsUnused(a)
    ensures Agree(CompleteLogin(a, cfg, tab, user, now), CompleteLogin(b, cfg, tab, user, now), now)
  {
    hide Sim, RequestAllowed, NewSession, WithCode, NextIsUnused, Live;
    SameIdentities(a, b, now);
    CompletionAgrees(a, b, tab, user, now);
    if MayComplete(a, tab, user, now) {
      var auth := a.authSessions[tab];
      CreateSessionSim(a, b, cfg, auth.realm, auth.client, user, 2, now);
      var row := NewSession(a, cfg, auth.realm, auth.client, user, now);
      var x, y := PutSession(Draw(a, 2), a.supply, row), PutSession(Draw(b, 2), b.supply, row);
      EligibleAgrees(x, y, a.supply, auth.realm, now);
      var marked := auth.(selectedUser := Some(user), authenticated := true);
      PutAuthSim(x, y, tab, marked, now);
      if Eligible(x, a.supply, auth.realm, now) {
        WithCodeSim(PutAuth(x, tab, marked), PutAuth(y, tab, marked), cfg, auth.client, a.supply, auth.params,
                    a.supply + 1, now);
      }
    }
  }

  lemma HintLogoutAgrees(a: Db, b: Db, realm: Id, raw: Jwt, audience: Option<string>, now: Time)
    requires Sim(a, b, now)
    ensures Agree(LogoutByHint(a, realm, raw, audience, now), LogoutByHint(b, realm, raw, audience, now), now)
  {
    hide Sim, HintVerifies, Revoke, ClientNamed;
    SameIdentities(a, b, now);
    var aud := if audience.Some? then audience.value else raw.claims.aud;
    HintAgrees(a, b, raw, realm, aud, now);
    NamesAgree(a, b, realm, 0, raw.claims.azp);
    if HintVerifies(a, raw, realm, aud, now) {
      var sid := raw.claims.sid;
      HintNeedsSession(a, raw, realm, aud, now);
      RevokeAndLogSim(a, b, sid, realm,
                      Event(realm, ClientNamed(a, realm, raw.claims.azp), Some(a.sessions[sid].user), Some(sid)), now);
    }
  }

  lemma HintNeedsSession(db: Db, raw: Jwt, realm: Id, audience: string, now: Time)
    requires HintVerifies(db, raw, realm, audience, now)
    ensures raw.claims.sid in db.sessions && !Expired(db.sessions[raw.claims.sid], now)
  {}

  lemma RefreshLogoutAgrees(a: Db, b: Db, realm: Id, client: Id, raw: Jwt, now: Time)
    requires Sim(a, b, now)
    ensures Agree(LogoutByRefresh(a, realm, client, raw, now), LogoutByRefresh(b, realm, client, raw, now), now)
  {
    hide Sim, Revoke, Decodes, EnabledAudience, UnusedRowMatches;
    SameIdentities(a, b, now);
    NamesAgree(a, b, realm, client, "");
    if Authenticated(a, realm, client) {
      var aud := a.ids.clients[client].clientId;
      var sid := raw.claims.sid;
      VerificationAgrees(a, b, raw, realm, aud, Refresh, now);
      EligibleAgrees(a, b, sid, realm, now);
      if Verifies(a, raw, realm, aud, Refresh, now) {
        RevokeAndLogSim(a, b, sid, realm, Event(realm, Some(client), Some(a.sessions[sid].user), Some(sid)), now);
      }
    }
  }
}

/** Refresh completeness: a refresh token works until it is used, its session
    ends, or the floor of its expiry is reached. */
module Completeness {
  import opened Prelude
  import opened Tables
  import opened Protocol
  import opened Invariants
  import opened Retention
  import opened Removal
  import opened RealmRemoval
  import opened Server
  import opened Lifetimes
  import opened Finality

  // ---------------------------------------------------------------- in one state

  /** What the holder of a stored token needs at time `now`. */
  predicate Redeemable(db: Db, t: Id, narrowed: Option<Scope>, now: Time)
    requires t in db.tokens
  {
    var row := db.tokens[t];
    && row.usedAt.None? && row.revokedAt.None? && Floor(now) < Floor(row.expiresAt)
    && Authenticated(db, row.realm, row.client) && Eligible(db, row.session, row.realm, now)
    && (narrowed.Some? ==> Narrows(narrowed.value, row.scope))
  }

  lemma StoredFacts(db: Db, t: Id, clock: Time)
    requires Inv(db, clock) && t in db.tokens
    ensures RecordOf(db.ids, db.keys, db.sessions, t, db.tokens[t])
    ensures TokenRefs(db.ids, db.sessions, db.tokens[t])
    ensures db.tokens[t].createdAt <= clock
    ensures |ActiveKeys(db.keys, db.tokens[t].realm)| == 1
  {
    hide IdentityRefs, KeyTable, BucketTable, AuthTable, MailTable, EventTable, SessionTable, CodeTable,
         LinkTable, FamiliesOk, Drawn, SessionsBounded, TokensBounded, RecordOf, ActiveKeys;
    assert RecordOf(db.ids, db.keys, db.sessions, t, db.tokens[t]);
    assert db.tokens[t].hash.kid in db.keys && db.keys[db.tokens[t].hash.kid].realm == db.tokens[t].realm by {
      RecordKey(db.ids, db.keys, db.sessions, t, db.tokens[t]);
    }
  }

  lemma RecordKey(ids: Identities, keys: map<Id, Key>, sessions: map<Id, UserSession>, t: Id, row: RefreshToken)
    requires RecordOf(ids, keys, sessions, t, row)
    ensures row.hash.kid in keys && keys[row.hash.kid].realm == row.realm
  {}

  /** Before the floor of the stored expiry every time check passes: that of the
      signed claim, that of the floored clock and that of the stored column. */
  lemma ExpiryChecksAgree(now: Time, expiresAt: Time)
    ensures now < Floor(expiresAt) * SECOND <==> Floor(now) < Floor(expiresAt)
    ensures Floor(now) < Floor(expiresAt) ==> now < expiresAt
  {
    FloorBefore(now, Floor(expiresAt));
    assert Floor(expiresAt) * SECOND <= expiresAt;
  }

  lemma StoredTokenDecodes(db: Db, t: Id, checkExpiry: bool, clock: Time, now: Time)
    requires Inv(db, clock) && clock <= now && t in db.tokens
    requires Floor(now) < Floor(db.tokens[t].expiresAt)
    ensures var row := db.tokens[t];
            && row.client in db.ids.clients
            && Decodes(db, row.hash, row.realm, db.ids.clients[row.client].clientId, Refresh, checkExpiry, now)
            && HasToken(db, row.hash, row.realm, row.client) && row.session in db.sessions
            && (row.revokedAt.None? ==>
                  RefreshMatches(row, row.hash.claims, row.session, db.sessions[row.session], now))
  {
    StoredFacts(db, t, clock);
    var row := db.tokens[t];
    ExpiryChecksAgree(now, row.expiresAt);
    assert Floor(row.createdAt) * SECOND <= row.createdAt;
    hide Inv, Floor, ActiveKeys;
  }

  /** The idle time that a refresh writes lies in the future, so issuing finds the
      session eligible again. */
  lemma ExtensionStaysEligible(db: Db, cfg: Config, t: Id, now: Time)
    requires cfg.Positive() && t in db.tokens
    requires var row := db.tokens[t]; Eligible(db, row.session, row.realm, now)
    ensures var row := db.tokens[t];
            Eligible(ConsumeAndExtend(db, cfg, t, now), row.session, row.realm, now)
  {
    var s := db.sessions[db.tokens[t].session];
    AfterIsLater(now, db.ids.realms[s.realm].idleSeconds, cfg.idleSeconds);
    hide After;
  }

  lemma AfterIsLater(now: Time, override: Option<nat>, default: nat)
    requires 0 < default
    ensures now < After(now, override, default)
  {}

  /** In every reachable state a stored refresh token is accepted exactly when it
      is unused, unrevoked and before its floored expiry, its client, realm and
      session are in order and no scope is added. */
  lemma RefreshAcceptedIff(db: Db, cfg: Config, t: Id, narrowed: Option<Scope>, clock: Time, now: Time)
    requires Inv(db, clock) && clock <= now && cfg.Positive() && t in db.tokens
    ensures var row := db.tokens[t];
            RefreshGrant(db, cfg, row.realm, row.client, row.hash, narrowed, now).1.Tokens?
            <==> Redeemable(db, t, narrowed, now)
  {
    hide Inv, Redeemable, RefreshGrant;
    if Redeemable(db, t, narrowed, now) {
      RedeemableAccepted(db, cfg, t, narrowed, clock, now);
    } else {
      OthersRefused(db, cfg, t, narrowed, clock, now);
    }
  }

  lemma RedeemableAccepted(db: Db, cfg: Config, t: Id, narrowed: Option<Scope>, clock: Time, now: Time)
    requires Inv(db, clock) && clock <= now && cfg.Positive() && t in db.tokens && Redeemable(db, t, narrowed, now)
    ensures var row := db.tokens[t];
            RefreshGrant(db, cfg, row.realm, row.client, row.hash, narrowed, now).1.Tokens?
  {
    hide Inv, Decodes, RefreshMatches, Live, Distinct, ConsumeAndExtend, ActiveKeys, IssueTokens;
    StoredFacts(db, t, clock);
    StoredTokenDecodes(db, t, true, clock, now);
    ExtensionStaysEligible(db, cfg, t, now);
    ScopeAllowed(db, t, narrowed);
    hide HasToken, RecordOf;
    IssueAfterConsume(db, cfg, t, narrowed, now);
  }

  lemma OthersRefused(db: Db, cfg: Config, t: Id, narrowed: Option<Scope>, clock: Time, now: Time)
    requires Inv(db, clock) && clock <= now && t in db.tokens && !Redeemable(db, t, narrowed, now)
    ensures var row := db.tokens[t];
            !RefreshGrant(db, cfg, row.realm, row.client, row.hash, narrowed, now).1.Tokens?
  {
    hide Inv, Decodes, IssueTokens, Distinct, ConsumeAndExtend, Revoke, ActiveKeys, OnlyRows, Live, IdentitiesEnabled;
    StoredFacts(db, t, clock);
    assert db.tokens[t].hash.claims.exp == Floor(db.tokens[t].expiresAt);
  }

  lemma ScopeAllowed(db: Db, t: Id, narrowed: Option<Scope>)
    requires t in db.tokens && (narrowed.Some? ==> Narrows(narrowed.value, db.tokens[t].scope))
    ensures Narrows(if narrowed.Some? then narrowed.value else db.tokens[t].scope, db.tokens[t].scope)
  {}

  lemma IssueAfterConsume(db: Db, cfg: Config, t: Id, narrowed: Option<Scope>, now: Time)
    requires t in db.tokens && Authenticated(db, db.tokens[t].realm, db.tokens[t].client)
    requires db.tokens[t].session in db.sessions && db.sessions[db.tokens[t].session].realm in db.ids.realms
    requires Eligible(ConsumeAndExtend(db, cfg, t, now), db.tokens[t].session, db.tokens[t].realm, now)
    requires |ActiveKeys(db.keys, db.tokens[t].realm)| == 1
    ensures var row := db.tokens[t];
            IssueTokens(ConsumeAndExtend(db, cfg, t, now), cfg, row.realm, row.client, row.session,
                        Distinct(if narrowed.Some? then narrowed.value else row.scope), None, Some(t), now).Issued?
  {
    hide Distinct, ActiveKeys, NewRefresh, CommonClaims, AccessExpiry, AddRow, Eligible;
  }

  // ---------------------------------------------------------------- across a run

  /** Why the row of a token may be missing. */
  predicate Excused(db: Db, row: RefreshToken, now: Time) {
    || row.expiresAt <= now
    || Ended(db, row.session, now)
    || (row.client < db.supply && row.client !in db.ids.clients)
    || (row.realm < db.supply && row.realm !in db.ids.realms)
  }

  /** The row is there, and as it was apart from use, revocation and its link; or
      there is a reason for its absence. */
  predicate Traced(db: Db, t: Id, row: RefreshToken, now: Time) {
    (t in db.tokens && TokenForward(row, db.tokens[t])) || Excused(db, row, now)
  }

  lemma ExcusedStays(a: Db, b: Db, row: RefreshToken, since: Time, now: Time)
    requires Forward(a, b, now) && Excused(a, row, since) && since <= now
    ensures Excused(b, row, now)
  {}

  predicate Deletes(request: Request) {
    request.RequestBatch? || request.RequestDeleteClient? || request.RequestDeleteRealm?
  }

  /** Only the cleanup and the deletions remove token rows. */
  lemma OthersKeepRows(db: Db, cfg: Config, request: Request, now: Time)
    requires !Deletes(request)
    ensures db.tokens.Keys <= Apply(db, cfg, request, now).0.tokens.Keys
  {
    hide Apply;
    if request.RequestRefresh? || request.RequestExchange? || request.RequestPassword?
       || request.RequestHintLogout? || request.RequestRefreshLogout?
    {
      GrantsKeepRows(db, cfg, request, now);
    } else if request.RequestAuthorize? || request.RequestLogin? {
      LoginsKeepRows(db, cfg, request, now);
    } else if request.RequestAdminister? {
      AdministerKeepsRows(db, cfg, request, now);
    } else {
      KeyAndBucketForward(db, cfg, request, now);
    }
  }

  lemma IssueKeepsRows(db: Db, cfg: Config, realm: Id, client: Id, sid: Id, scope: Scope,
                       nonce: Option<string>, parent: Option<Id>, now: Time)
    requires parent.Some? ==> parent.value in db.tokens
    requires IssueTokens(db, cfg, realm, client, sid, scope, nonce, parent, now).Issued?
    ensures db.tokens.Keys <= IssueTokens(db, cfg, realm, client, sid, scope, nonce, parent, now).db.tokens.Keys
  {
    hide ActiveKeys, NewRefresh, CommonClaims, AccessExpiry, MayIssue;
  }

  lemma RefreshKeepsRows(db: Db, cfg: Config, realm: Id, client: Id, raw: Jwt, narrowed: Option<Scope>, now: Time)
    ensures db.tokens.Keys <= RefreshGrant(db, cfg, realm, client, raw, narrowed, now).0.tokens.Keys
  {
    hide Decodes, RefreshMatches, Narrows, Distinct, Live, IssueTokens, RevokedRow, OfSession, Extended;
    if RefreshGrant(db, cfg, realm, client, raw, narrowed, now).1.Tokens? {
      var t := raw.claims.jti;
      IssueKeepsRows(ConsumeAndExtend(db, cfg, t, now), cfg, realm, client, raw.claims.sid,
                     Distinct(if narrowed.Some? then narrowed.value else db.tokens[t].scope), None, Some(t), now);
    }
  }

  lemma ExchangeKeepsRows(db: Db, cfg: Config, realm: Id, client: Id, raw: Id, uri: string,
                          verifier: Option<string>, now: Time)
    ensures db.tokens.Keys <= ExchangeGrant(db, cfg, realm, client, raw, uri, verifier, now).0.tokens.Keys
  {
    hide ProofAccepted, IssueTokens, Eligible;
    if ExchangeGrant(db, cfg, realm, client, raw, uri, verifier, now).1.Tokens? {
      var code := db.codes[raw];
      IssueKeepsRows(PutCode(db, raw, code.(consumedAt := Some(now))), cfg, realm, client, code.session,
                     code.params.scope, code.params.nonce, None, now);
    }
  }

  lemma PasswordKeepsRows(db: Db, cfg: Config, realm: Id, client: Id, user: Id, scope: Scope, now: Time)
    ensures db.tokens.Keys <= PasswordGrant(db, cfg, realm, client, user, scope, now).0.tokens.Keys
  {
    hide NewSession, IssueTokens, Distinct;
    if PasswordGrant(db, cfg, realm, client, user, scope, now).1.Tokens? {
      IssueKeepsRows(PutSession(Draw(db, 1), db.supply, NewSession(db, cfg, realm, client, user, now)),
                     cfg, realm, client, db.supply, Distinct(scope), None, None, now);
    }
  }

  lemma LogoutKeepsRows(db: Db, realm: Id, client: Id, raw: Jwt, audience: Option<string>, now: Time)
    ensures LogoutByHint(db, realm, raw, audience, now).0.tokens.Keys == db.tokens.Keys
    ensures LogoutByRefresh(db, realm, client, raw, now).0.tokens.Keys == db.tokens.Keys
  {
    hide HintVerifies, Verifies, RevokedRow, OfSession, ClientNamed;
  }

  lemma AdministerKeepsRows(db: Db, cfg: Config, request: Request, now: Time)
    requires request.RequestAdminister?
    ensures Apply(db, cfg, request, now).0.tokens == db.tokens
  {
    hide Changed, Verdict;
  }

  lemma GrantsKeepRows(db: Db, cfg: Config, request: Request, now: Time)
    requires request.RequestRefresh? || request.RequestExchange? || request.RequestPassword?
             || request.RequestHintLogout? || request.RequestRefreshLogout?
    ensures db.tokens.Keys <= Apply(db, cfg, request, now).0.tokens.Keys
  {
    hide RefreshGrant, ExchangeGrant, PasswordGrant, LogoutByHint, LogoutByRefresh;
    match request
    case RequestRefresh(realm, client, raw, narrowed) => RefreshKeepsRows(db, cfg, realm, client, raw, narrowed, now);
    case RequestExchange(realm, client, code, uri, verifier) =>
      ExchangeKeepsRows(db, cfg, realm, client, code, uri, verifier, now);
    case RequestPassword(realm, client, user, scope) => PasswordKeepsRows(db, cfg, realm, client, user, scope, now);
    case RequestHintLogout(realm, raw, audience) => LogoutKeepsRows(db, realm, 0, raw, audience, now);
    case RequestRefreshLogout(realm, client, raw) => LogoutKeepsRows(db, realm, client, raw, None, now);
    case _ =>
  }

  lemma ReusedKeepsTokens(db: Db, cfg: Config, realm: Id, client: Id, sid: Id, params: AuthParams, now: Time)
    requires sid in db.sessions && db.sessions[sid].realm in db.ids.realms && realm in db.ids.realms
    ensures Reused(db, cfg, realm, client, sid, params, now).tokens == db.tokens
  {
    hide NewAuth, Extended, OnlyRows;
  }

  lemma WithCodeKeepsTokens(db: Db, cfg: Config, client: Id, sid: Id, params: AuthParams, c: Id, now: Time)
    requires sid in db.sessions && db.sessions[sid].realm in db.ids.realms
    ensures WithCode(db, cfg, client, sid, params, c, now).tokens == db.tokens
  {
    hide NewCode, OnlyRows;
  }

  lemma AuthorizeKeepsTokens(db: Db, cfg: Config, realm: Id, client: Id, cookie: Option<Id>, params: AuthParams,
                             now: Time)
    ensures Authorize(db, cfg, realm, client, cookie, params, now).0.tokens == db.tokens
  {
    hide NewAuth, Reused, WithCode, Live, OnlyRows;
    if Authorize(db, cfg, realm, client, cookie, params, now).1.CodeIssued? {
      var after := Reused(db, cfg, realm, client, cookie.value, params, now);
      ReusedKeepsTokens(db, cfg, realm, client, cookie.value, params, now);
      WithCodeKeepsTokens(after, cfg, client, cookie.value, params, db.supply + 1, now);
    }
  }

  lemma LoginKeepsTokens(db: Db, cfg: Config, tab: Id, user: Id, now: Time)
    ensures CompleteLogin(db, cfg, tab, user, now).0.tokens == db.tokens
  {
    hide NewCode, RequestAllowed, IdentitiesEnabled, NewSession, Expired;
  }

  lemma LoginsKeepRows(db: Db, cfg: Config, request: Request, now: Time)
    requires request.RequestAuthorize? || request.RequestLogin?
    ensures Apply(db, cfg, request, now).0.tokens == db.tokens
  {
    hide Authorize, CompleteLogin;
    match request
    case RequestAuthorize(realm, client, cookie, params) =>
      AuthorizeKeepsTokens(db, cfg, realm, client, cookie, params, now);
    case RequestLogin(tab, user) => LoginKeepsTokens(db, cfg, tab, user, now);
    case _ =>
  }

  lemma BatchExcuses(db: Db, cutoff: Time, batch: Batch, t: Id, now: Time)
    requires Together(db.sessions, db.tokens) && Below(db.sessions, db.supply)
    requires cutoff <= now && BatchFits(db, cutoff, batch)
    requires t in db.tokens && t !in DropBatch(db, batch).tokens
    ensures Excused(DropBatch(db, batch), db.tokens[t], now)
  {
    hide UnlinkEvents, UnlinkMails, StaleAuths, StaleCodes, StaleBuckets;
    assert batch.BatchTokens? && t in StaleTokens(db, cutoff);
  }

  lemma DeleteClientExcuses(db: Db, c: Id, owners: map<Id, Id>, t: Id, now: Time)
    requires Below(db.ids.clients, db.supply) && t in db.tokens && db.tokens[t].client in db.ids.clients
    requires t !in DeleteClient(db, c, owners).tokens
    ensures Excused(DeleteClient(db, c, owners), db.tokens[t], now)
  {}

  lemma DeleteRealmExcuses(db: Db, r: Id, t: Id, now: Time)
    requires Below(db.ids.realms, db.supply) && t in db.tokens && db.tokens[t].realm in db.ids.realms
    requires t !in DeleteRealm(db, r).tokens
    ensures Excused(DeleteRealm(db, r), db.tokens[t], now)
  {}

  lemma DeletionsExcuse(db: Db, cfg: Config, request: Request, t: Id, now: Time)
    requires Inv(db, now) && RevokedTogether(db) && Deletes(request)
    requires t in db.tokens && t !in Apply(db, cfg, request, now).0.tokens
    ensures Excused(Apply(db, cfg, request, now).0, db.tokens[t], now)
  {
    hide Inv, Rehomes, Owners, RecordOf, ActiveKeys, DropBatch, BatchFits, DeleteClient, DeleteRealm, Together, Below,
         Excused,
         RefreshGrant, ExchangeGrant, PasswordGrant, Authorize, CompleteLogin, LogoutByHint, LogoutByRefresh,
         Verifies, CountFailure, AskBlocked, ClearFailures, EnsureKey, RotateKey, Administer;
    StoredFacts(db, t, now);
    DrawnBelow(db, now);
    match request
    case RequestBatch(cutoff, batch) => BatchExcuses(db, cutoff, batch, t, now);
    case RequestDeleteClient(client, pick) => DeleteClientExcuses(db, client, Owners(db, client, pick), t, now);
    case RequestDeleteRealm(realm) => DeleteRealmExcuses(db, realm, t, now);
    case _ =>
  }

  lemma DrawnBelow(db: Db, now: Time)
    requires Inv(db, now)
    ensures Below(db.ids.clients, db.supply) && Below(db.ids.realms, db.supply) && Below(db.tokens, db.supply)
  {
    hide Integrity, FamiliesOk, RowsOk, KeysOk, Below;
  }

  lemma StepTraces(db: Db, cfg: Config, request: Request, t: Id, row: RefreshToken, since: Time, now: Time)
    requires Inv(db, now) && RevokedTogether(db) && since <= now && Traced(db, t, row, since) && t < db.supply
    ensures Traced(Apply(db, cfg, request, now).0, t, row, now)
  {
    hide Inv, RevokedTogether, Apply, Excused, Deletes;
    var after := Apply(db, cfg, request, now).0;
    ApplyForward(db, cfg, request, now);
    if Excused(db, row, since) {
      ExcusedStays(db, after, row, since, now);
    } else if t !in after.tokens {
      if !Deletes(request) { OthersKeepRows(db, cfg, request, now); }
      DeletionsExcuse(db, cfg, request, t, now);
      SameExcuse(after, row, db.tokens[t], now);
    }
  }

  lemma SameExcuse(db: Db, x: RefreshToken, y: RefreshToken, now: Time)
    requires TokenForward(x, y) && Excused(db, y, now)
    ensures Excused(db, x, now)
  {}

  lemma {:induction false} RunTraces(db: Db, cfg: Config, steps: seq<Step>, t: Id, row: RefreshToken, start: Time)
    requires Inv(db, start) && RevokedTogether(db) && Ordered(steps, start)
    requires Traced(db, t, row, start) && t < db.supply
    ensures Traced(Run(db, cfg, steps), t, row, Clock(steps, start))
    decreases |steps|
  {
    hide Inv, RevokedTogether, Apply, Traced;
    if steps != [] {
      var first := steps[0];
      var after := Apply(db, cfg, first.request, first.now).0;
      ClockAdvances(db, start, first.now);
      ApplyKeepsInv(db, cfg, first.request, first.now);
      StepTraces(db, cfg, first.request, t, row, start, first.now);
      StepKeepsTogether(db, cfg, first.request, first.now);
      RunTraces(after, cfg, steps[1..], t, row, first.now);
    }
  }

  lemma StepKeepsTogether(db: Db, cfg: Config, request: Request, now: Time)
    requires RevokedTogether(db)
    ensures RevokedTogether(Apply(db, cfg, request, now).0) && db.supply <= Apply(db, cfg, request, now).0.supply
  {
    hide Apply, RevokedTogether;
    ApplyForward(db, cfg, request, now);
  }

  lemma {:induction false} RunKeepsTogether(db: Db, cfg: Config, steps: seq<Step>)
    requires RevokedTogether(db)
    ensures RevokedTogether(Run(db, cfg, steps))
    decreases |steps|
  {
    hide Apply, RevokedTogether;
    if steps != [] {
      StepKeepsTogether(db, cfg, steps[0].request, steps[0].now);
      RunKeepsTogether(Apply(db, cfg, steps[0].request, steps[0].now).0, cfg, steps[1..]);
    }
  }

  /** A refresh token stored in any reachable state and not used since is accepted
      at every later time before the floor of its expiry, provided its session,
      realm and client are still in order, whatever happened in between: key
      rotations, cleanup batches, deletions and other logins included. */
  lemma UnusedTokensWork(db: Db, cfg: Config, steps: seq<Step>, t: Id, narrowed: Option<Scope>,
                         start: Time, now: Time)
    requires Inv(db, start) && RevokedTogether(db) && cfg.Positive() && t in db.tokens
    requires Ordered(steps, start) && Clock(steps, start) <= now
    requires var row, after := db.tokens[t], Run(db, cfg, steps);
             && Floor(now) < Floor(row.expiresAt)
             && Authenticated(after, row.realm, row.client) && Eligible(after, row.session, row.realm, now)
             && (narrowed.Some? ==> Narrows(narrowed.value, row.scope))
             && (t in after.tokens ==> after.tokens[t].usedAt.None?)
    ensures var row := db.tokens[t];
            RefreshGrant(Run(db, cfg, steps), cfg, row.realm, row.client, row.hash, narrowed, now).1.Tokens?
  {
    var after := Run(db, cfg, steps);
    var clock := Clock(steps, start);
    var row := db.tokens[t];
    hide Inv, Run, Ordered, Clock, RefreshGrant, RevokedTogether, Traced, Authenticated, Eligible, Narrows;
    DrawnBelow(db, start);
    assert Traced(db, t, row, start) by { TracedItself(db, t, start); }
    RunKeepsInv(db, cfg, steps, start);
    RunTraces(db, cfg, steps, t, row, start);
    RunKeepsTogether(db, cfg, steps);
    ExpiryChecksAgree(now, row.expiresAt);
    StillStored(after, t, row, clock, now);
    RefreshAcceptedIff(after, cfg, t, narrowed, clock, now);
  }

  lemma TracedItself(db: Db, t: Id, now: Time)
    requires t in db.tokens
    ensures Traced(db, t, db.tokens[t], now)
  {}

  lemma StillStored(db: Db, t: Id, row: RefreshToken, clock: Time, now: Time)
    requires RevokedTogether(db) && Traced(db, t, row, clock) && clock <= now < row.expiresAt
    requires Authenticated(db, row.realm, row.client) && Eligible(db, row.session, row.realm, now)
    ensures t in db.tokens && TokenForward(row, db.tokens[t]) && db.tokens[t].revokedAt.None?
  {}

  /** The refresh token of a response is the one on the new, unused row. */
  lemma IssuedIsStored(db: Db, cfg: Config, realm: Id, client: Id, sid: Id, scope: Scope,
                       nonce: Option<string>, parent: Option<Id>, now: Time)
    requires Below(db.tokens, db.supply) && (parent.Some? ==> parent.value in db.tokens)
    requires IssueTokens(db, cfg, realm, client, sid, scope, nonce, parent, now).Issued?
    ensures var r := IssueTokens(db, cfg, realm, client, sid, scope, nonce, parent, now);
            var t := r.response.refresh.claims.jti;
            && t !in db.tokens && t in r.db.tokens && r.db.tokens[t].hash == r.response.refresh
            && r.db.tokens[t].usedAt.None? && r.db.tokens[t].revokedAt.None?
            && r.db.tokens[t].realm == realm && r.db.tokens[t].client == client
            && r.db.tokens[t].session == sid && r.db.tokens[t].scope == scope
            && r.db.tokens[t].expiresAt == RefreshExpiry(db, cfg, db.sessions[sid], realm, now)
            && (parent.Some? ==> r.db.tokens[parent.value].replacedBy == Some(t))
  {
    hide ActiveKeys, Min, After;
  }
}

/** Tokens and codes that were handed out are taken back at every later state, through
    key rotations, cleanups, deletions and whatever else happens in between. */
module Persistence {
  import opened Prelude
  import opened Tables
  import opened Protocol
  import opened Invariants
  import opened Retention
  import opened Removal
  import opened RealmRemoval
  import opened Server
  import opened Lifetimes
  import opened Finality
  import opened Completeness
  import opened RoundTrips

  // ---------------------------------------------------------------- names are kept

  /** A realm keeps its issuer, a client its realm and client id, while they exist. */
  ghost predicate NamesKept(a: Identities, b: Identities, supply: Id) {
    && (forall r | r in b.realms && r < supply :: r in a.realms && b.realms[r].issuer == a.realms[r].issuer)
    && (forall c | c in b.clients && c < supply ::
          c in a.clients && b.clients[c].realm == a.clients[c].realm && b.clients[c].clientId == a.clients[c].clientId)
  }

  lemma AdministerKeepsNames(db: Db, change: Change)
    ensures NamesKept(db.ids, Administer(db, change).0.ids, db.supply)
  {}

  lemma RemovalKeepsNames(db: Db, c: Id, r: Id, pick: Pick)
    ensures NamesKept(db.ids, RemoveClient(db, c, pick).0.ids, db.supply)
    ensures NamesKept(db.ids, RemoveRealm(db, r).0.ids, db.supply)
  {
    hide Owners, Rehomed, DoomedMails, UnlinkEvents, ForgetClient, OwnedAuths, TokensOf, CodesOf, SessionsOf;
  }

  lemma BatchKeepsNames(db: Db, batch: Batch)
    ensures DropBatch(db, batch).ids == db.ids
  {
    hide UnlinkMails, UnlinkTokens, UnlinkEvents;
  }

  lemma OthersKeepNames(db: Db, cfg: Config, request: Request, now: Time)
    requires !request.RequestAdminister? && !request.RequestDeleteClient? && !request.RequestDeleteRealm?
    ensures Apply(db, cfg, request, now).0.ids == db.ids
  {
    hide RefreshGrant, ExchangeGrant, PasswordGrant, Authorize, CompleteLogin, Verifies, LogoutByHint, LogoutByRefresh,
         CountFailure, AskBlocked, ClearFailures, EnsureKey, RotateKey, BatchFits, DropBatch, KeyForward;
    if request.RequestBatch? { BatchKeepsNames(db, request.batch); }
  }

  lemma StepKeepsNames(db: Db, cfg: Config, request: Request, now: Time)
    ensures NamesKept(db.ids, Apply(db, cfg, request, now).0.ids, db.supply)
  {
    hide NamesKept, RemoveClient, RemoveRealm, Administer;
    SameNamesKept(db.ids, db.supply);
    match request
    case RequestAdminister(change) => AdministerKeepsNames(db, change);
    case RequestDeleteClient(c, pick) => RemovalKeepsNames(db, c, 0, pick);
    case RequestDeleteRealm(r) => RemovalKeepsNames(db, 0, r, (s, rows) => 0);
    case _ =>
      OthersKeepNames(db, cfg, request, now);
      hide Apply;
  }

  lemma SameNamesKept(ids: Identities, supply: Id)
    ensures NamesKept(ids, ids, supply)
  {}

  /** Names and sessions after a run. */
  lemma {:induction false} RunKeepsNames(db: Db, cfg: Config, steps: seq<Step>)
    ensures NamesKept(db.ids, Run(db, cfg, steps).ids, db.supply)
    ensures db.supply <= Run(db, cfg, steps).supply
    decreases |steps|
  {
    hide Apply, SessionsForward, CodesForward, TokensForward, KeysForward, RevokedTogether, NamesForward;
    if steps != [] {
      var after := Apply(db, cfg, steps[0].request, steps[0].now).0;
      StepKeepsNames(db, cfg, steps[0].request, steps[0].now);
      ApplyForward(db, cfg, steps[0].request, steps[0].now);
      RunKeepsNames(after, cfg, steps[1..]);
    }
  }

  /** A session keeps what its tokens say about it. */
  lemma {:induction false} RunKeepsSession(db: Db, cfg: Config, steps: seq<Step>, s: Id)
    requires s < db.supply && s in Run(db, cfg, steps).sessions
    ensures s in db.sessions
    ensures var x, y := db.sessions[s], Run(db, cfg, steps).sessions[s];
            y.realm == x.realm && y.user == x.user && y.authTime == x.authTime
    decreases |steps|
  {
    hide Apply, CodesForward, TokensForward, KeysForward, RevokedTogether, NamesForward;
    if steps != [] {
      var first := steps[0];
      ApplyForward(db, cfg, first.request, first.now);
      RunKeepsSession(Apply(db, cfg, first.request, first.now).0, cfg, steps[1..], s);
    }
  }

  // ---------------------------------------------------------------- tokens

  /** A signed token still decodes as exactly what it is while its realm exists. */
  lemma StillDecodes(db: Db, cfg: Config, raw: Jwt, realm: Id, client: Id, sid: Id, own: TokenType, issued: Time,
                     steps: seq<Step>, start: Time, audience: string, typ: TokenType, checkExpiry: bool, later: Time)
    requires SignedFor(db, raw, realm, client, sid, own, issued) && issued <= later
    requires Inv(db, start) && Ordered(steps, start) && realm in Run(db, cfg, steps).ids.realms
    ensures realm < db.supply && client < db.supply && sid < db.supply
    ensures Decodes(Run(db, cfg, steps), raw, realm, audience, typ, checkExpiry, later) <==>
      typ == own && audience == db.ids.clients[client].clientId && (checkExpiry ==> later < raw.claims.exp * SECOND)
  {
    hide Inv, Run, Ordered, Live, ActiveKeys;
    var after := Run(db, cfg, steps);
    KeysNeverLost(db, cfg, steps, raw.kid, start);
    RunKeepsInv(db, cfg, steps, start);
    KeyAlgorithm(after, raw.kid, Clock(steps, start));
    RunKeepsNames(db, cfg, steps);
    SignedDrawn(db, raw, realm, client, sid, own, issued, start);
    assert Floor(issued) * SECOND <= issued;
  }

  lemma KeyAlgorithm(db: Db, k: Id, now: Time)
    requires Inv(db, now) && k in db.keys
    ensures db.keys[k].rs256
  {
    hide Integrity, FamiliesOk, RowsOk, Drawn, ActiveKeys;
  }

  lemma SignedDrawn(db: Db, raw: Jwt, realm: Id, client: Id, sid: Id, own: TokenType, issued: Time, now: Time)
    requires SignedFor(db, raw, realm, client, sid, own, issued) && Inv(db, now)
    ensures realm < db.supply && client < db.supply && sid < db.supply
  {
    hide Integrity, FamiliesOk, RowsOk, KeysOk;
  }

  /** An access or ID token verifies at every state of every later run as exactly its
      own type and client, until its expiry and while its session and that client are in
      order; as a logout hint an ID token needs an unexpired session only. */
  lemma TokensKeepVerifying(db: Db, cfg: Config, raw: Jwt, realm: Id, client: Id, sid: Id, own: TokenType, issued: Time,
                            steps: seq<Step>, start: Time, audience: string, typ: TokenType, later: Time)
    requires SignedFor(db, raw, realm, client, sid, own, issued) && own != Refresh
    requires Inv(db, start) && Ordered(steps, start) && Clock(steps, start) <= later && issued <= later
    ensures var after := Run(db, cfg, steps);
            Verifies(after, raw, realm, audience, typ, later) <==>
              && typ == own && audience == db.ids.clients[client].clientId && Floor(later) < raw.claims.exp
              && EnabledAudience(after, realm, audience) && Eligible(after, sid, realm, later)
    ensures var after := Run(db, cfg, steps);
            HintVerifies(after, raw, realm, audience, later) <==>
              && own == ID && audience == db.ids.clients[client].clientId && EnabledAudience(after, realm, audience)
              && sid in after.sessions && IdentitiesEnabled(after, after.sessions[sid], realm)
              && !Expired(after.sessions[sid], later)
  {
    hide Inv, Run, Ordered, Decodes, Expired, EnabledAudience, UnusedRowMatches, Floor;
    var after := Run(db, cfg, steps);
    FloorBefore(later, raw.claims.exp);
    SignedDrawn(db, raw, realm, client, sid, own, issued, start);
    if realm in after.ids.realms {
      StillDecodes(db, cfg, raw, realm, client, sid, own, issued, steps, start, audience, typ, true, later);
      StillDecodes(db, cfg, raw, realm, client, sid, own, issued, steps, start, audience, ID, false, later);
      if sid in after.sessions { RunKeepsSession(db, cfg, steps, sid); }
    } else {
      NoRealmDecodesNothing(after, raw, realm, audience, typ, later);
    }
  }

  lemma NoRealmDecodesNothing(db: Db, raw: Jwt, realm: Id, audience: string, typ: TokenType, now: Time)
    requires realm !in db.ids.realms
    ensures !Decodes(db, raw, realm, audience, typ, true, now) && !Decodes(db, raw, realm, audience, ID, false, now)
  {}

  /** In particular the tokens of every response, whatever happens afterwards. */
  lemma IssuedTokensKeepVerifying(db: Db, cfg: Config, realm: Id, client: Id, sid: Id, scope: Scope,
                                  nonce: Option<string>, parent: Option<Id>, now: Time,
                                  steps: seq<Step>, audience: string, typ: TokenType, later: Time)
    requires parent.Some? ==> parent.value in db.tokens
    requires IssueTokens(db, cfg, realm, client, sid, scope, nonce, parent, now).Issued?
    requires Inv(IssueTokens(db, cfg, realm, client, sid, scope, nonce, parent, now).db, now)
    requires Ordered(steps, now) && Clock(steps, now) <= later && now <= later
    ensures
      var r := IssueTokens(db, cfg, realm, client, sid, scope, nonce, parent, now); var after := Run(r.db, cfg, steps);
      var own := audience == db.ids.clients[client].clientId && EnabledAudience(after, realm, audience);
      && (Verifies(after, r.response.access, realm, audience, typ, later) <==>
            typ == Bearer && own && Floor(later) < r.response.access.claims.exp && Eligible(after, sid, realm, later))
      && (r.response.idToken.Some? ==>
            && (Verifies(after, r.response.idToken.value, realm, audience, typ, later) <==>
                  && typ == ID && own && Floor(later) < r.response.idToken.value.claims.exp
                  && Eligible(after, sid, realm, later))
            && (HintVerifies(after, r.response.idToken.value, realm, audience, later) <==>
                  own && sid in after.sessions && IdentitiesEnabled(after, after.sessions[sid], realm)
                  && !Expired(after.sessions[sid], later)))
  {
    hide IssueTokens, Run, Ordered, Inv, Verifies, HintVerifies, Expired, Floor, EnabledAudience, IdentitiesEnabled;
    var r := IssueTokens(db, cfg, realm, client, sid, scope, nonce, parent, now);
    ResponseIsSigned(db, cfg, realm, client, sid, scope, nonce, parent, now);
    IssueFrame(db, cfg, realm, client, sid, scope, nonce, parent, now);
    SignedAfter(db, r.db, r.response.access, realm, client, sid, Bearer, now);
    TokensKeepVerifying(r.db, cfg, r.response.access, realm, client, sid, Bearer, now, steps, now, audience, typ,
                        later);
    if r.response.idToken.Some? {
      SignedAfter(db, r.db, r.response.idToken.value, realm, client, sid, ID, now);
      TokensKeepVerifying(r.db, cfg, r.response.idToken.value, realm, client, sid, ID, now, steps, now, audience, typ,
                          later);
    }
  }

  lemma SignedAfter(db: Db, after: Db, raw: Jwt, realm: Id, client: Id, sid: Id, own: TokenType, now: Time)
    requires SignedFor(db, raw, realm, client, sid, own, now) && OnlyRows(db, after) && after.sessions == db.sessions
    ensures SignedFor(after, raw, realm, client, sid, own, now)
  {
    hide Live;
  }

  // ---------------------------------------------------------------- codes

  lemma IssueKeepsCodes(db: Db, cfg: Config, realm: Id, client: Id, sid: Id, scope: Scope,
                        nonce: Option<string>, parent: Option<Id>, now: Time)
    requires parent.Some? ==> parent.value in db.tokens
    requires IssueTokens(db, cfg, realm, client, sid, scope, nonce, parent, now).Issued?
    ensures IssueTokens(db, cfg, realm, client, sid, scope, nonce, parent, now).db.codes == db.codes
  {
    hide ActiveKeys, NewRefresh, CommonClaims, AccessExpiry, MayIssue;
  }

  lemma RevokedKeepsCodes(db: Db, sid: Id, realm: Id, row: Event, now: Time)
    ensures LogEvent(Revoke(db, sid, realm, now), row).codes == db.codes
  {
    hide Swept, OnlyRows;
  }

  lemma RefreshKeepsCodes(db: Db, cfg: Config, realm: Id, client: Id, raw: Jwt, narrowed: Option<Scope>, now: Time)
    ensures RefreshGrant(db, cfg, realm, client, raw, narrowed, now).0.codes == db.codes
  {
    hide Decodes, RefreshMatches, Narrows, Distinct, Live, IssueTokens, Revoke, Extended, OnlyRows;
    if RefreshGrant(db, cfg, realm, client, raw, narrowed, now).1.Tokens? {
      var t := raw.claims.jti;
      IssueKeepsCodes(ConsumeAndExtend(db, cfg, t, now), cfg, realm, client, raw.claims.sid,
                      Distinct(if narrowed.Some? then narrowed.value else db.tokens[t].scope), None, Some(t), now);
    } else if RefreshGrant(db, cfg, realm, client, raw, narrowed, now).1 == Refused(RefreshReuse) {
      var sid := raw.claims.sid;
      if sid in db.sessions {
        RevokedKeepsCodes(db, sid, realm, Event(realm, Some(client), Some(db.sessions[sid].user), Some(sid)), now);
      }
    }
  }

  lemma PasswordKeepsCodes(db: Db, cfg: Config, realm: Id, client: Id, user: Id, scope: Scope, now: Time)
    ensures PasswordGrant(db, cfg, realm, client, user, scope, now).0.codes == db.codes
  {
    hide Distinct, IssueTokens, NewSession, OnlyRows;
    if PasswordGrant(db, cfg, realm, client, user, scope, now).1.Tokens? {
      IssueKeepsCodes(PutSession(Draw(db, 1), db.supply, NewSession(db, cfg, realm, client, user, now)),
                      cfg, realm, client, db.supply, Distinct(scope), None, None, now);
    }
  }

  lemma ExchangeKeepsCodes(db: Db, cfg: Config, realm: Id, client: Id, raw: Id, uri: string,
                           verifier: Option<string>, now: Time)
    ensures db.codes.Keys <= ExchangeGrant(db, cfg, realm, client, raw, uri, verifier, now).0.codes.Keys
  {
    hide ProofAccepted, IssueTokens, Eligible;
    if ExchangeGrant(db, cfg, realm, client, raw, uri, verifier, now).1.Tokens? {
      var code := db.codes[raw];
      IssueKeepsCodes(PutCode(db, raw, code.(consumedAt := Some(now))), cfg, realm, client, code.session,
                      code.params.scope, code.params.nonce, None, now);
    }
  }

  lemma LoginsKeepCodes(db: Db, cfg: Config, realm: Id, client: Id, cookie: Option<Id>, params: AuthParams,
                        tab: Id, user: Id, now: Time)
    ensures db.codes.Keys <= Authorize(db, cfg, realm, client, cookie, params, now).0.codes.Keys
    ensures db.codes.Keys <= CompleteLogin(db, cfg, tab, user, now).0.codes.Keys
  {
    hide NewAuth, NewCode, Live, Extended, RequestAllowed, IdentitiesEnabled, NewSession;
  }

  lemma OthersKeepCodes(db: Db, cfg: Config, request: Request, now: Time)
    requires !Deletes(request)
    ensures db.codes.Keys <= Apply(db, cfg, request, now).0.codes.Keys
  {
    hide RefreshGrant, ExchangeGrant, PasswordGrant, Authorize, CompleteLogin, Verifies, HintVerifies, Swept,
         CountFailure, AskBlocked, ClearFailures, EnsureKey, RotateKey, Verdict, Changed, KeyForward, ClientNamed;
    match request
    case RequestRefresh(realm, client, raw, narrowed) =>
      RefreshKeepsCodes(db, cfg, realm, client, raw, narrowed, now);
    case RequestPassword(realm, client, user, scope) =>
      PasswordKeepsCodes(db, cfg, realm, client, user, scope, now);
    case RequestExchange(realm, client, code, uri, verifier) =>
      ExchangeKeepsCodes(db, cfg, realm, client, code, uri, verifier, now);
    case RequestAuthorize(realm, client, cookie, params) =>
      LoginsKeepCodes(db, cfg, realm, client, cookie, params, 0, 0, now);
    case RequestLogin(tab, user) =>
      LoginsKeepCodes(db, cfg, 0, 0, None, AuthParams("", [], None, None, None), tab, user, now);
    case _ =>
  }

  /** A code that is gone would not be accepted any more in any case. */
  predicate CodeExcused(db: Db, row: Code, now: Time) {
    || row.expiresAt <= now
    || Ended(db, row.session, now)
    || (row.client < db.supply && row.client !in db.ids.clients)
  }

  predicate CodeTraced(db: Db, c: Id, row: Code, now: Time) {
    CodeExcused(db, row, now) || (c in db.codes && CodeForward(row, db.codes[c]))
  }

  lemma CodeExcusedStays(a: Db, b: Db, row: Code, since: Time, now: Time)
    requires Forward(a, b, now) && CodeExcused(a, row, since) && since <= now
    ensures CodeExcused(b, row, now)
  {
    if Ended(a, row.session, since) { EndedStays(a, b, row.session, since, now); }
    hide SessionsForward, CodesForward, TokensForward, KeysForward, RevokedTogether, Ended;
  }

  lemma CodeRow(db: Db, c: Id, now: Time)
    requires Inv(db, now) && c in db.codes
    ensures var row := db.codes[c];
            && row.session in db.sessions && row.session < db.supply && row.client in db.ids.clients
            && db.ids.clients[row.client].realm == row.realm && row.client < db.supply && c < db.supply
            && db.sessions[row.session].user == row.user && db.sessions[row.session].realm == row.realm
  {
    hide IdentityRefs, KeyTable, BucketTable, AuthTable, MailTable, EventTable, SessionTable, TokenTable, LinkTable,
         FamiliesOk, RowsOk, KeysOk;
    assert CodeRefs(db.ids, db.sessions, db.codes[c]);
  }

  lemma BatchExcusesCode(db: Db, cutoff: Time, batch: Batch, c: Id, now: Time)
    requires cutoff <= now && BatchFits(db, cutoff, batch) && c in db.codes && c !in DropBatch(db, batch).codes
    requires db.codes[c].session in db.sessions && db.codes[c].session < db.supply
    ensures CodeExcused(DropBatch(db, batch), db.codes[c], now)
  {
    hide UnlinkEvents, UnlinkMails, UnlinkTokens, StaleAuths, StaleTokens, StaleBuckets;
    assert batch.BatchCodes? && c in StaleCodes(db, cutoff);
  }

  lemma RemovalExcusesCode(db: Db, client: Id, pick: Pick, realm: Id, c: Id, now: Time)
    requires c in db.codes && db.codes[c].client in db.ids.clients && db.codes[c].client < db.supply
    requires db.ids.clients[db.codes[c].client].realm == db.codes[c].realm
    ensures c !in RemoveClient(db, client, pick).0.codes ==>
      CodeExcused(RemoveClient(db, client, pick).0, db.codes[c], now)
    ensures c !in RemoveRealm(db, realm).0.codes ==> CodeExcused(RemoveRealm(db, realm).0, db.codes[c], now)
  {
    hide Owners, Rehomed, DoomedMails, UnlinkEvents, ForgetClient, OwnedAuths, Ended;
  }

  lemma DeletionsExcuseCode(db: Db, cfg: Config, request: Request, c: Id, now: Time)
    requires Inv(db, now) && Deletes(request) && c in db.codes && c !in Apply(db, cfg, request, now).0.codes
    ensures CodeExcused(Apply(db, cfg, request, now).0, db.codes[c], now)
  {
    hide Inv, CodeExcused, DropBatch, BatchFits, RemoveClient, RemoveRealm;
    CodeRow(db, c, now);
    match request
    case RequestBatch(cutoff, batch) => BatchExcusesCode(db, cutoff, batch, c, now);
    case RequestDeleteClient(client, pick) => RemovalExcusesCode(db, client, pick, 0, c, now);
    case RequestDeleteRealm(realm) => RemovalExcusesCode(db, 0, (s, rows) => 0, realm, c, now);
    case _ =>
  }

  lemma StepTracesCode(db: Db, cfg: Config, request: Request, c: Id, row: Code, since: Time, now: Time)
    requires Inv(db, now) && since <= now && CodeTraced(db, c, row, since) && c < db.supply
    ensures CodeTraced(Apply(db, cfg, request, now).0, c, row, now)
    ensures db.supply <= Apply(db, cfg, request, now).0.supply
  {
    hide Inv, Apply, CodeExcused, Deletes, SessionsForward, TokensForward, KeysForward, NamesForward, RevokedTogether;
    var after := Apply(db, cfg, request, now).0;
    ApplyForward(db, cfg, request, now);
    if CodeExcused(db, row, since) {
      CodeExcusedStays(db, after, row, since, now);
    } else if c !in after.codes {
      if !Deletes(request) { OthersKeepCodes(db, cfg, request, now); }
      DeletionsExcuseCode(db, cfg, request, c, now);
      SameCodeExcuse(after, row, db.codes[c], now);
    }
  }

  lemma SameCodeExcuse(db: Db, x: Code, y: Code, now: Time)
    requires CodeForward(x, y) && CodeExcused(db, y, now)
    ensures CodeExcused(db, x, now)
  {
    hide Ended;
  }

  lemma {:induction false} RunTracesCode(db: Db, cfg: Config, steps: seq<Step>, c: Id, row: Code, start: Time)
    requires Inv(db, start) && Ordered(steps, start) && CodeTraced(db, c, row, start) && c < db.supply
    ensures CodeTraced(Run(db, cfg, steps), c, row, Clock(steps, start))
    decreases |steps|
  {
    hide Inv, Apply, CodeTraced;
    if steps != [] {
      var first := steps[0];
      ClockAdvances(db, start, first.now);
      ApplyKeepsInv(db, cfg, first.request, first.now);
      StepTracesCode(db, cfg, first.request, c, row, start, first.now);
      RunTracesCode(Apply(db, cfg, first.request, first.now).0, cfg, steps[1..], c, row, first.now);
    }
  }

  /** A code of any sound state is accepted at every state of every later run from
      exactly its client, with its redirect URI and a proof, unless it was consumed, until
      it expires and while its client and session are in order: cleanups and deletions
      take away only codes that would be refused anyway. */
  lemma CodesKeepWorking(db: Db, cfg: Config, c: Id, steps: seq<Step>, start: Time,
                         realm: Id, client: Id, uri: string, verifier: Option<string>, later: Time)
    requires Inv(db, start) && c in db.codes && Ordered(steps, start) && Clock(steps, start) <= later
    ensures
      var row, after := db.codes[c], Run(db, cfg, steps);
      CodeAccepted(after, realm, client, c, uri, verifier, later) <==>
        && realm == row.realm && client == row.client && uri == row.params.redirectUri && later < row.expiresAt
        && EnabledClient(after, realm, client) && after.ids.clients[client].standardFlow
        && Eligible(after, row.session, realm, later)
        && ProofAccepted(row.params, after.ids.clients[client].pkcePolicy, verifier)
        && row.consumedAt.None? && (c in after.codes ==> after.codes[c].consumedAt.None?)
  {
    hide Inv, Run, Ordered, ProofAccepted, CodeTraced;
    var row, after, clock := db.codes[c], Run(db, cfg, steps), Clock(steps, start);
    CodeRow(db, c, start);
    assert CodeTraced(db, c, row, start) by { CodeTracedItself(db, c, start); }
    RunTracesCode(db, cfg, steps, c, row, start);
    RunKeepsInv(db, cfg, steps, start);
    RunKeepsNames(db, cfg, steps);
    if c in after.codes {
      CodeStays(db, cfg, steps, c);
      CodeRow(after, c, clock);
    } else {
      GoneIsExcused(after, c, row, clock, later);
    }
    hide IdentitiesEnabled, Live;
  }

  lemma CodeTracedItself(db: Db, c: Id, now: Time)
    requires c in db.codes
    ensures CodeTraced(db, c, db.codes[c], now)
  {}

  lemma GoneIsExcused(db: Db, c: Id, row: Code, clock: Time, later: Time)
    requires CodeTraced(db, c, row, clock) && c !in db.codes && clock <= later
    ensures row.expiresAt <= later || !Eligible(db, row.session, row.realm, later) || row.client !in db.ids.clients
  {
    hide IdentitiesEnabled;
  }

  lemma {:induction false} CodeStays(db: Db, cfg: Config, steps: seq<Step>, c: Id)
    requires c < db.supply && c in Run(db, cfg, steps).codes
    ensures c in db.codes && CodeForward(db.codes[c], Run(db, cfg, steps).codes[c])
    decreases |steps|
  {
    hide Apply, SessionsForward, TokensForward, KeysForward, RevokedTogether, NamesForward;
    if steps != [] {
      ApplyForward(db, cfg, steps[0].request, steps[0].now);
      CodeStays(Apply(db, cfg, steps[0].request, steps[0].now).0, cfg, steps[1..], c);
    }
  }
}

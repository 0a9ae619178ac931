/** What a disabled user, client or realm still gets: nothing, until it is enabled
    again. */
module Disabled {
  import opened Prelude
  import opened Tables
  import opened Protocol
  import opened Invariants
  import opened Retention
  import opened Removal
  import opened RealmRemoval
  import opened Server
  import opened Lifetimes
  import opened Finality
  import opened RoundTrips
  import opened Persistence
  import opened Replies

  // ---------------------------------------------------------------- one request

  lemma IssuedIsEligible(db: Db, cfg: Config, realm: Id, client: Id, sid: Id, scope: Scope, nonce: Option<string>,
                         parent: Option<Id>, now: Time)
    requires parent.Some? ==> parent.value in db.tokens
    requires IssueTokens(db, cfg, realm, client, sid, scope, nonce, parent, now).Issued?
    ensures var r := IssueTokens(db, cfg, realm, client, sid, scope, nonce, parent, now);
            && Eligible(r.db, sid, realm, now) && r.response.session == sid && Open(r.db.ids, realm, client)
            && r.db.ids == db.ids
  {
    hide AccessExpiry, NewRefresh, CommonClaims, Live, ActiveKeys;
  }

  lemma RefreshIsEligible(db: Db, cfg: Config, realm: Id, client: Id, raw: Jwt, narrowed: Option<Scope>, now: Time)
    requires RefreshGrant(db, cfg, realm, client, raw, narrowed, now).1.Tokens?
    ensures var (after, reply) := RefreshGrant(db, cfg, realm, client, raw, narrowed, now);
            Eligible(after, reply.response.session, realm, now) && Open(after.ids, realm, client)
  {
    hide Decodes, RefreshMatches, Live, IssueTokens, Distinct, ConsumeAndExtend;
    var t := raw.claims.jti;
    Extendable(db, cfg, realm, client, raw, narrowed, now);
    IssuedIsEligible(ConsumeAndExtend(db, cfg, t, now), cfg, realm, client, raw.claims.sid,
                     Distinct(if narrowed.Some? then narrowed.value else db.tokens[t].scope), None, Some(t), now);
  }

  lemma ExchangeIsEligible(db: Db, cfg: Config, realm: Id, client: Id, c: Id, uri: string, verifier: Option<string>,
                           now: Time)
    requires ExchangeGrant(db, cfg, realm, client, c, uri, verifier, now).1.Tokens?
    ensures var (after, reply) := ExchangeGrant(db, cfg, realm, client, c, uri, verifier, now);
            Eligible(after, reply.response.session, realm, now) && Open(after.ids, realm, client)
  {
    hide IssueTokens, ProofAccepted, Live;
    var code := db.codes[c];
    IssuedIsEligible(PutCode(db, c, code.(consumedAt := Some(now))), cfg, realm, client, code.session,
                     code.params.scope, code.params.nonce, None, now);
  }

  lemma PasswordIsEligible(db: Db, cfg: Config, realm: Id, client: Id, user: Id, scope: Scope, now: Time)
    requires PasswordGrant(db, cfg, realm, client, user, scope, now).1.Tokens?
    ensures var (after, reply) := PasswordGrant(db, cfg, realm, client, user, scope, now);
            Eligible(after, reply.response.session, realm, now) && Open(after.ids, realm, client)
  {
    hide IssueTokens, NewSession, Distinct, Live;
    IssuedIsEligible(PutSession(Draw(db, 1), db.supply, NewSession(db, cfg, realm, client, user, now)), cfg, realm,
                     client, db.supply, Distinct(scope), None, None, now);
  }

  lemma CodeIsEligible(db: Db, cfg: Config, request: Request, now: Time)
    requires request.RequestAuthorize? || request.RequestLogin?
    requires Apply(db, cfg, request, now).1.CodeIssued?
    ensures var (after, reply) := Apply(db, cfg, request, now);
            && (request.RequestAuthorize? ==>
                  Eligible(after, reply.codeSession, request.realm, now)
                  && Open(after.ids, request.realm, request.client))
            && (request.RequestLogin? ==>
                  && request.tab in db.authSessions
                  && Eligible(after, reply.codeSession, db.authSessions[request.tab].realm, now))
  {
    hide Extended, NewSession, NewAuth, NewCode, Live;
    AsksSomething(db, request);
  }

  lemma AsksSomething(db: Db, request: Request)
    ensures request.RequestAuthorize? && RequestAllowed(db, request.realm, request.client, request.params) ==>
      Open(db.ids, request.realm, request.client)
  {}

  predicate ByClient(request: Request) {
    request.RequestRefresh? || request.RequestExchange? || request.RequestPassword? || request.RequestAuthorize?
  }

  /** Whatever is handed out or confirmed belongs to a session that is in order in the
      state after the reply, and goes to a client that is. */
  lemma ServedInOrder(db: Db, cfg: Config, request: Request, clock: Time, now: Time, s: Id)
    requires Inv(db, clock) && clock <= now && Serves(Apply(db, cfg, request, now).1, s)
    ensures var after := Apply(db, cfg, request, now).0;
            && s in after.sessions && SessionRefs(after.ids, after.sessions[s])
            && Serving(after.ids, after.sessions[s], now)
            && (ByClient(request) ==> Open(after.ids, request.realm, request.client))
  {
    ClockAdvances(db, clock, now);
    ApplyKeepsInv(db, cfg, request, now);
    var after := Apply(db, cfg, request, now).0;
    var realm := ServedRealm(db, cfg, request, now, s);
    hide Apply, Inv, Serving, Eligible;
    EligibleIff(after, s, realm, now, now);
  }

  /** The three grants reply with tokens if they hand out anything, the logins with codes. */
  lemma ReplyKinds(db: Db, cfg: Config, request: Request, now: Time)
    ensures var reply := Apply(db, cfg, request, now).1;
            && (request.RequestRefresh? || request.RequestExchange? || request.RequestPassword? ==>
                  !reply.CodeIssued? && !reply.Verified?)
            && (request.RequestAuthorize? || request.RequestLogin? ==> !reply.Tokens? && !reply.Verified?)
  {
    hide Decodes, RefreshMatches, Eligible, IssueTokens, Distinct, ConsumeAndExtend, Revoke, ProofAccepted, NewSession,
         RequestAllowed, MayCreateSession, Reused, WithCode, NewAuth, OnlyRows;
  }

  lemma ServedRealm(db: Db, cfg: Config, request: Request, now: Time, s: Id) returns (realm: Id)
    requires Serves(Apply(db, cfg, request, now).1, s)
    ensures Eligible(Apply(db, cfg, request, now).0, s, realm, now)
    ensures ByClient(request) ==> Open(Apply(db, cfg, request, now).0.ids, request.realm, request.client)
  {
    hide RefreshGrant, ExchangeGrant, PasswordGrant, Authorize, CompleteLogin, LogoutByHint, LogoutByRefresh, EnsureKey,
         RotateKey, Administer, CountFailure, AskBlocked, ClearFailures, RemoveClient, RemoveRealm, Eligible, Open,
         Decodes, EnabledAudience, UnusedRowMatches, BatchFits, DropBatch;
    ReplyKinds(db, cfg, request, now);
    realm := 0;
    match request
    case RequestRefresh(r, client, raw, narrowed) =>
      RefreshIsEligible(db, cfg, r, client, raw, narrowed, now);
      realm := r;
    case RequestExchange(r, client, code, uri, verifier) =>
      ExchangeIsEligible(db, cfg, r, client, code, uri, verifier, now);
      realm := r;
    case RequestPassword(r, client, user, scope) =>
      PasswordIsEligible(db, cfg, r, client, user, scope, now);
      realm := r;
    case RequestAuthorize(r, client, cookie, params) =>
      CodeIsEligible(db, cfg, request, now);
      realm := r;
    case RequestLogin(tab, user) =>
      CodeIsEligible(db, cfg, request, now);
      realm := db.authSessions[tab].realm;
    case RequestVerify(r, raw, audience, typ) => realm := r;
    case _ => NothingServed(db, cfg, request, now);
  }

  /** All other requests hand out nothing. */
  lemma NothingServed(db: Db, cfg: Config, request: Request, now: Time)
    requires !ByClient(request) && !request.RequestLogin? && !request.RequestVerify?
    ensures var reply := Apply(db, cfg, request, now).1; !reply.Tokens? && !reply.CodeIssued? && !reply.Verified?
  {
    hide HintVerifies, Verifies, Revoke, ActiveKeys, Deactivated, OnlyKeys, Changed, ClientNamed;
  }

  // ---------------------------------------------------------------- over runs

  datatype Bar = BarRealm(realm: Id) | BarClient(client: Id) | BarUser(user: Id)

  /** The row is disabled, or deleted. */
  predicate Barred(db: Db, bar: Bar) {
    match bar
    case BarRealm(r) => r < db.supply && (r in db.ids.realms ==> !db.ids.realms[r].enabled)
    case BarClient(c) => c < db.supply && (c in db.ids.clients ==> !db.ids.clients[c].enabled)
    case BarUser(u) => u < db.supply && (u in db.ids.users ==> !db.ids.users[u].enabled)
  }

  /** The request enables the row. */
  predicate Enables(request: Request, bar: Bar) {
    request.RequestAdminister? &&
    match bar
    case BarRealm(r) => request.change.UpdateRealm? && request.change.realm == r && request.change.realmRow.enabled
    case BarClient(c) => request.change.UpdateClient? && request.change.client == c && request.change.clientRow.enabled
    case BarUser(u) => request.change.UpdateUser? && request.change.user == u && request.change.enabled
  }

  /** The session is one of that user, of that realm, or owned by that client. */
  predicate Under(s: UserSession, bar: Bar) {
    match bar
    case BarRealm(r) => s.realm == r
    case BarClient(c) => s.client == c
    case BarUser(u) => s.user == u
  }

  lemma ChangeKeepsBar(db: Db, change: Change, bar: Bar)
    requires Barred(db, bar) && !Enables(RequestAdminister(change), bar)
    ensures Barred(Administer(db, change).0, bar)
  {}

  lemma DeletionKeepsBar(db: Db, request: Request, bar: Bar)
    requires Barred(db, bar)
    ensures request.RequestDeleteClient? ==> Barred(RemoveClient(db, request.client, request.pick).0, bar)
    ensures request.RequestDeleteRealm? ==> Barred(RemoveRealm(db, request.realm).0, bar)
  {
    hide Owners, Rehomed, DoomedMails, UnlinkEvents, ForgetClient, OwnedAuths, TokensOf, CodesOf, SessionsOf;
  }

  lemma SameNamesBarred(a: Db, b: Db, bar: Bar)
    requires Barred(a, bar) && b.ids == a.ids && a.supply <= b.supply
    ensures Barred(b, bar)
  {}

  lemma SupplyGrows(db: Db, cfg: Config, request: Request, now: Time)
    ensures db.supply <= Apply(db, cfg, request, now).0.supply
  {
    ApplyForward(db, cfg, request, now);
    hide Apply, SessionsForward, CodesForward, TokensForward, NamesForward, KeysForward, RevokedTogether;
  }

  lemma StepKeepsBar(db: Db, cfg: Config, request: Request, bar: Bar, now: Time)
    requires Barred(db, bar) && !Enables(request, bar)
    ensures Barred(Apply(db, cfg, request, now).0, bar)
  {
    hide Barred, Administer, RemoveClient, RemoveRealm, Enables;
    if request.RequestAdminister? {
      ChangeKeepsBar(db, request.change, bar);
    } else if request.RequestDeleteClient? || request.RequestDeleteRealm? {
      DeletionKeepsBar(db, request, bar);
    } else {
      hide Apply;
      SupplyGrows(db, cfg, request, now);
      OthersKeepNames(db, cfg, request, now);
      SameNamesBarred(db, Apply(db, cfg, request, now).0, bar);
    }
  }

  lemma {:induction false} BarStays(db: Db, cfg: Config, steps: seq<Step>, bar: Bar)
    requires Barred(db, bar) && forall i | 0 <= i < |steps| :: !Enables(steps[i].request, bar)
    ensures Barred(Run(db, cfg, steps), bar)
    decreases |steps|
  {
    hide Apply, Barred, Enables;
    if steps != [] {
      StepKeepsBar(db, cfg, steps[0].request, bar, steps[0].now);
      BarStays(Apply(db, cfg, steps[0].request, steps[0].now).0, cfg, steps[1..], bar);
    }
  }

  /** Once a user, a client or a realm is disabled or deleted, no request of any later
      state is served for a session of it, and none that the client or the realm presents,
      until a step enables the row again. */
  lemma DisabledServeNobody(db: Db, cfg: Config, steps: seq<Step>, start: Time, bar: Bar, request: Request, now: Time,
                            s: Id)
    requires Inv(db, start) && Ordered(steps, start) && Clock(steps, start) <= now
    requires Barred(db, bar) && forall i | 0 <= i < |steps| :: !Enables(steps[i].request, bar)
    ensures var (after, reply) := Apply(Run(db, cfg, steps), cfg, request, now);
            Serves(reply, s) ==>
              && s in after.sessions && !Under(after.sessions[s], bar)
              && (ByClient(request) ==> bar != BarClient(request.client) && bar != BarRealm(request.realm))
  {
    hide Apply, Run, Inv, Serves, Serving, Open, Barred, Enables;
    var mid := Run(db, cfg, steps);
    RunKeepsInv(db, cfg, steps, start);
    BarStays(db, cfg, steps, bar);
    var after := Apply(mid, cfg, request, now).0;
    if Serves(Apply(mid, cfg, request, now).1, s) {
      ServedInOrder(mid, cfg, request, Clock(steps, start), now, s);
      ServedChangesNothing(mid, cfg, request, bar, now, s);
      StepKeepsBar(mid, cfg, request, bar, now);
      InOrderNotBarred(after, after.sessions[s], bar, now);
      if ByClient(request) { OpenNotBarred(after, request.realm, request.client, bar); }
    }
  }

  lemma InOrderNotBarred(db: Db, s: UserSession, bar: Bar, now: Time)
    requires SessionRefs(db.ids, s) && Serving(db.ids, s, now) && Barred(db, bar)
    ensures !Under(s, bar)
  {}

  lemma OpenNotBarred(db: Db, realm: Id, client: Id, bar: Bar)
    requires Open(db.ids, realm, client) && Barred(db, bar)
    ensures bar != BarClient(client) && bar != BarRealm(realm)
  {}

  lemma ServedChangesNothing(db: Db, cfg: Config, request: Request, bar: Bar, now: Time, s: Id)
    requires Serves(Apply(db, cfg, request, now).1, s)
    ensures !Enables(request, bar)
  {
    hide Apply;
    if request.RequestAdminister? { NothingServed(db, cfg, request, now); }
  }
}

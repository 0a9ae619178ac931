/** A session that nobody uses ends: its idle expiry is pinned by its last use, and only
    a refresh or a login with its cookie moves it. */
module Idle {
  import opened Prelude
  import opened Tables
  import opened Protocol
  import opened Invariants
  import opened Retention
  import opened Removal
  import opened RealmRemoval
  import opened Server
  import opened Lifetimes
  import opened Finality
  import opened Replies
  import opened Effects

  /** The request presents a refresh token of the session, or its cookie. */
  predicate Uses(request: Request, s: Id) {
    || (request.RequestRefresh? && request.raw.claims.sid == s)
    || (request.RequestAuthorize? && request.cookie == Some(s))
  }

  // ---------------------------------------------------------------- who moves the idle expiry

  predicate SameIdle(a: Db, b: Db, s: Id) {
    s in a.sessions && s in b.sessions ==> b.sessions[s].idleExpires == a.sessions[s].idleExpires
  }

  lemma RevokedKeepsIdle(a: Db, b: Db, realm: Id, sid: Id, now: Time, s: Id)
    requires sid in a.sessions && Revoked(a, b, realm, sid, now)
    ensures SameIdle(a, b, s)
  {}

  lemma RefreshKeepsIdle(db: Db, cfg: Config, realm: Id, client: Id, raw: Jwt, narrowed: Option<Scope>, clock: Time,
                         now: Time, s: Id)
    requires Inv(db, clock) && raw.claims.sid != s
    ensures SameIdle(db, RefreshGrant(db, cfg, realm, client, raw, narrowed, now).0, s)
  {
    hide Inv, RefreshGrant, Revoked, Touched, Speaks;
    var reply := RefreshGrant(db, cfg, realm, client, raw, narrowed, now).1;
    if reply.Tokens? {
      TokenDrawn(db, cfg, realm, client, raw, narrowed, clock, now);
      var e := RefreshEffect(db, cfg, realm, client, raw, narrowed, now);
    } else if reply == Refused(RefreshReuse) {
      ReuseEffect(db, cfg, realm, client, raw, narrowed, now);
      RevokedKeepsIdle(db, RefreshGrant(db, cfg, realm, client, raw, narrowed, now).0, realm, raw.claims.sid, now, s);
    } else {
      RefreshRefusal(db, cfg, realm, client, raw, narrowed, now);
    }
  }

  lemma RefreshRefusal(db: Db, cfg: Config, realm: Id, client: Id, raw: Jwt, narrowed: Option<Scope>, now: Time)
    requires var reply := RefreshGrant(db, cfg, realm, client, raw, narrowed, now).1;
             !reply.Tokens? && reply != Refused(RefreshReuse)
    ensures RefreshGrant(db, cfg, realm, client, raw, narrowed, now).0 == db
  {
    hide Decodes, RefreshMatches, Eligible, IssueTokens, Distinct, ConsumeAndExtend, Revoke, Narrows;
  }

  lemma TokenDrawn(db: Db, cfg: Config, realm: Id, client: Id, raw: Jwt, narrowed: Option<Scope>, clock: Time,
                   now: Time)
    requires Inv(db, clock) && RefreshGrant(db, cfg, realm, client, raw, narrowed, now).1.Tokens?
    ensures raw.claims.jti < db.supply
  {
    RefreshSteps(db, cfg, realm, client, raw, narrowed, now);
    hide RefreshGrant, IssueTokens, ConsumeAndExtend, Integrity, FamiliesOk, RowsOk, KeysOk;
  }

  lemma AuthorizeKeepsIdle(db: Db, cfg: Config, realm: Id, client: Id, cookie: Option<Id>, params: AuthParams,
                           now: Time, s: Id)
    requires cookie != Some(s)
    ensures SameIdle(db, Authorize(db, cfg, realm, client, cookie, params, now).0, s)
  {
    hide Authorize, Touched, Tab, CodeFor;
    var reply := Authorize(db, cfg, realm, client, cookie, params, now).1;
    AuthorizeKinds(db, cfg, realm, client, cookie, params, now);
    if reply.CodeIssued? {
      ReuseSessionEffect(db, cfg, realm, client, cookie.value, params, now);
    } else if reply.LoginPage? {
      LoginPageEffect(db, cfg, realm, client, cookie, params, now);
    }
  }

  lemma AuthorizeKinds(db: Db, cfg: Config, realm: Id, client: Id, cookie: Option<Id>, params: AuthParams, now: Time)
    ensures var (after, reply) := Authorize(db, cfg, realm, client, cookie, params, now);
            && (reply.CodeIssued? ==> cookie.Some?) && (!reply.CodeIssued? && !reply.LoginPage? ==> after == db)
  {
    hide Eligible, RequestAllowed, Reused, WithCode, NewAuth;
  }

  /** Grants and logins that begin a session or spend a code. */
  lemma GrantsKeepIdle(db: Db, cfg: Config, request: Request, clock: Time, now: Time, s: Id)
    requires Inv(db, clock) && s < db.supply
    requires request.RequestExchange? || request.RequestPassword? || request.RequestLogin?
    ensures SameIdle(db, Apply(db, cfg, request, now).0, s)
  {
    hide ProofAccepted, Eligible, IssueTokens, NewSession, Distinct, RequestAllowed, MayCreateSession, NewCode, Inv;
    if request.RequestExchange? && Apply(db, cfg, request, now).1.Tokens? {
      var e := ExchangeEffect(db, cfg, request.realm, request.client, request.code, request.uri, request.verifier, now);
    } else if request.RequestPassword? && Apply(db, cfg, request, now).1.Tokens? {
      var e := PasswordEffect(db, cfg, request.realm, request.client, request.user, request.scope, now);
    }
    hide ExchangeGrant, PasswordGrant, Speaks, Capped, Begun;
    RefusedOrServed(db, cfg, request, now);
  }

  lemma RefusedOrServed(db: Db, cfg: Config, request: Request, now: Time)
    requires request.RequestExchange? || request.RequestPassword? || request.RequestLogin?
    ensures var (after, reply) := Apply(db, cfg, request, now);
            !reply.Tokens? && !reply.CodeIssued? ==> after == db
  {
    hide ProofAccepted, Eligible, IssueTokens, NewSession, Distinct, RequestAllowed, MayCreateSession, WithCode;
  }

  lemma LogoutsKeepIdle(db: Db, cfg: Config, request: Request, now: Time, s: Id)
    requires request.RequestHintLogout? || request.RequestRefreshLogout? || request.RequestVerify?
    ensures SameIdle(db, Apply(db, cfg, request, now).0, s)
  {
    hide HintVerifies, Verifies, Swept, ClientNamed;
  }

  lemma DeletionsKeepIdle(db: Db, request: Request, s: Id)
    ensures request.RequestDeleteClient? ==> SameIdle(db, RemoveClient(db, request.client, request.pick).0, s)
    ensures request.RequestDeleteRealm? ==> SameIdle(db, RemoveRealm(db, request.realm).0, s)
    ensures request.RequestBatch? ==> SameIdle(db, DropBatch(db, request.batch), s)
  {
    hide Owners, DoomedMails, UnlinkEvents, UnlinkMails, UnlinkTokens, ForgetClient, OwnedAuths, TokensOf, CodesOf;
  }

  /** Only a request that uses the session moves its idle expiry. */
  lemma OthersKeepIdle(db: Db, cfg: Config, request: Request, clock: Time, now: Time, s: Id)
    requires Inv(db, clock) && s < db.supply && !Uses(request, s)
    ensures SameIdle(db, Apply(db, cfg, request, now).0, s)
  {
    hide RefreshGrant, ExchangeGrant, PasswordGrant, Authorize, CompleteLogin, LogoutByHint, LogoutByRefresh, EnsureKey,
         RotateKey, CountFailure, AskBlocked, ClearFailures, RemoveClient, RemoveRealm, Inv, OnlyKeys, BatchFits,
         DropBatch, Changed, Verdict, Verifies;
    match request
    case RequestRefresh(realm, client, raw, narrowed) =>
      RefreshKeepsIdle(db, cfg, realm, client, raw, narrowed, clock, now, s);
    case RequestAuthorize(realm, client, cookie, params) =>
      AuthorizeKeepsIdle(db, cfg, realm, client, cookie, params, now, s);
    case RequestExchange(_, _, _, _, _) => GrantsKeepIdle(db, cfg, request, clock, now, s);
    case RequestPassword(_, _, _, _) => GrantsKeepIdle(db, cfg, request, clock, now, s);
    case RequestLogin(_, _) => GrantsKeepIdle(db, cfg, request, clock, now, s);
    case RequestHintLogout(_, _, _) => LogoutsKeepIdle(db, cfg, request, now, s);
    case RequestRefreshLogout(_, _, _) => LogoutsKeepIdle(db, cfg, request, now, s);
    case RequestBatch(_, _) => DeletionsKeepIdle(db, request, s);
    case RequestDeleteClient(_, _) => DeletionsKeepIdle(db, request, s);
    case RequestDeleteRealm(_) => DeletionsKeepIdle(db, request, s);
    case _ => KeysKeepSessions(db, cfg, request, now);
  }

  lemma KeysKeepSessions(db: Db, cfg: Config, request: Request, now: Time)
    requires request.RequestEnsureKey? || request.RequestRotateKey? || request.RequestAdminister?
             || request.RequestVerify?
             || request.RequestFailure? || request.RequestBlocked? || request.RequestClear?
    ensures Apply(db, cfg, request, now).0.sessions == db.sessions
  {
    hide ActiveKeys, Deactivated, Changed, Verdict, Verifies, KeyForward;
  }

  // ---------------------------------------------------------------- over runs

  predicate Unused(steps: seq<Step>, s: Id) { forall i | 0 <= i < |steps| :: !Uses(steps[i].request, s) }

  lemma {:induction false} UnusedKeepsIdle(db: Db, cfg: Config, steps: seq<Step>, s: Id, start: Time)
    requires Inv(db, start) && Ordered(steps, start) && s in db.sessions && Unused(steps, s) && s < db.supply
    ensures s in Run(db, cfg, steps).sessions ==>
      Run(db, cfg, steps).sessions[s].idleExpires == db.sessions[s].idleExpires
    decreases |steps|
  {
    hide Apply, Inv, Uses;
    if steps != [] {
      var first := steps[0];
      var after := Apply(db, cfg, first.request, first.now).0;
      ClockAdvances(db, start, first.now);
      ApplyKeepsInv(db, cfg, first.request, first.now);
      OthersKeepIdle(db, cfg, first.request, first.now, first.now, s);
      SupplyOnlyGrows(db, cfg, first.request, first.now);
      if s in after.sessions {
        UnusedKeepsIdle(after, cfg, steps[1..], s, first.now);
      } else if s in Run(db, cfg, steps).sessions {
        GoneStaysGone(after, cfg, steps[1..], s);
      }
    }
  }

  lemma SupplyOnlyGrows(db: Db, cfg: Config, request: Request, now: Time)
    ensures db.supply <= Apply(db, cfg, request, now).0.supply
  {
    ApplyForward(db, cfg, request, now);
    hide Apply, SessionsForward, CodesForward, TokensForward, NamesForward, KeysForward, RevokedTogether;
  }

  lemma GoneStaysGone(db: Db, cfg: Config, steps: seq<Step>, s: Id)
    requires s < db.supply && s !in db.sessions
    ensures s !in Run(db, cfg, steps).sessions
  {
    MaximumThroughRun(db, cfg, steps, s);
    hide Run;
  }

  /** A session that no request uses ends at its idle expiry, whatever else happens. */
  lemma UnusedSessionsEnd(db: Db, cfg: Config, steps: seq<Step>, s: Id, start: Time, later: Time)
    requires Inv(db, start) && Ordered(steps, start) && s in db.sessions && Unused(steps, s)
    requires Clock(steps, start) <= later && db.sessions[s].idleExpires <= later
    ensures Ended(Run(db, cfg, steps), s, later)
  {
    SessionRow(db, s, start);
    UnusedKeepsIdle(db, cfg, steps, s, start);
    RunSupply(db, cfg, steps);
    hide Run, Inv, Ordered, Unused;
  }

  lemma {:induction false} RunSupply(db: Db, cfg: Config, steps: seq<Step>)
    ensures db.supply <= Run(db, cfg, steps).supply
    decreases |steps|
  {
    hide Apply;
    if steps != [] {
      SupplyOnlyGrows(db, cfg, steps[0].request, steps[0].now);
      RunSupply(Apply(db, cfg, steps[0].request, steps[0].now).0, cfg, steps[1..]);
    }
  }

  /** The request that begins the session or uses it, and is served. */
  ghost predicate Begins(db: Db, cfg: Config, request: Request, now: Time, s: Id) {
    && (request.RequestRefresh? || request.RequestAuthorize? || request.RequestPassword? || request.RequestLogin?)
    && Serves(Apply(db, cfg, request, now).1, s)
  }

  /** Whoever is served a refresh, a login or a reused browser session at `now` leaves an
      idle expiry of exactly the idle lifetime of the realm from now on, or the maximum of
      the session if that comes first. */
  lemma ServedIdle(db: Db, cfg: Config, request: Request, clock: Time, now: Time, s: Id)
    requires Inv(db, clock) && Begins(db, cfg, request, now, s)
    ensures var after := Apply(db, cfg, request, now).0;
            && s in after.sessions && after.sessions[s].realm in db.ids.realms
            && after.sessions[s].lastRefresh == now && s < after.supply
            && var row := after.sessions[s];
               var end := now + Lifetime(db.ids.realms[row.realm].idleSeconds, cfg.idleSeconds) * SECOND;
               row.idleExpires == (if end <= row.maxExpires then end else row.maxExpires)
  {
    hide RefreshGrant, Authorize, PasswordGrant, CompleteLogin, Inv, Speaks;
    match request
    case RequestRefresh(realm, client, raw, narrowed) =>
      TokenDrawnIfServed(db, cfg, request, clock, now, s);
      var e := RefreshEffect(db, cfg, realm, client, raw, narrowed, now);
      TouchedSession(db, cfg, request, clock, now);
    case RequestAuthorize(realm, client, cookie, params) =>
      ServedCookie(db, cfg, request, clock, now, s);
      ReuseSessionEffect(db, cfg, realm, client, s, params, now);
    case RequestPassword(realm, client, user, scope) =>
      ServedPassword(db, cfg, request, now, s);
      var e := PasswordEffect(db, cfg, realm, client, user, scope, now);
    case RequestLogin(tab, user) =>
      ServedLogin(db, cfg, request, now, s);
      LoginEffect(db, cfg, tab, user, now);
    case _ =>
  }

  lemma TokenDrawnIfServed(db: Db, cfg: Config, request: Request, clock: Time, now: Time, s: Id)
    requires Inv(db, clock) && request.RequestRefresh? && Serves(Apply(db, cfg, request, now).1, s)
    ensures RefreshGrant(db, cfg, request.realm, request.client, request.raw, request.narrowed, now).1.Tokens?
    ensures request.raw.claims.jti < db.supply && request.raw.claims.sid == s
  {
    RefreshTells(db, cfg, request.realm, request.client, request.raw, request.narrowed, now);
    hide RefreshGrant, Inv;
    TokenDrawn(db, cfg, request.realm, request.client, request.raw, request.narrowed, clock, now);
  }

  lemma RefreshTells(db: Db, cfg: Config, realm: Id, client: Id, raw: Jwt, narrowed: Option<Scope>, now: Time)
    ensures var reply := RefreshGrant(db, cfg, realm, client, raw, narrowed, now).1;
            && !reply.CodeIssued? && !reply.Verified? && (reply.Tokens? ==> reply.response.session == raw.claims.sid)
  {
    hide Decodes, RefreshMatches, Eligible, Distinct, ConsumeAndExtend, Revoke, Narrows, AddRow, NewRefresh,
         CommonClaims, AccessExpiry, ActiveKeys, MayIssue;
  }

  lemma TouchedSession(db: Db, cfg: Config, request: Request, clock: Time, now: Time)
    requires Inv(db, clock) && request.RequestRefresh? && request.raw.claims.sid in db.sessions
    ensures request.raw.claims.sid < db.supply
  {
    hide Integrity, FamiliesOk, RowsOk, KeysOk;
  }

  lemma ServedCookie(db: Db, cfg: Config, request: Request, clock: Time, now: Time, s: Id)
    requires Inv(db, clock) && request.RequestAuthorize? && Serves(Apply(db, cfg, request, now).1, s)
    ensures request.cookie == Some(s) && Apply(db, cfg, request, now).1.CodeIssued? && s in db.sessions && s < db.supply
    ensures db.sessions[s].realm == request.realm
  {
    assert request.cookie == Some(s) && Eligible(db, s, request.realm, now) by {
      hide Inv, Eligible, RequestAllowed, Reused, WithCode, NewAuth;
    }
    hide Integrity, FamiliesOk, RowsOk, KeysOk, RequestAllowed, Reused, WithCode, NewAuth, Live;
  }

  lemma ServedPassword(db: Db, cfg: Config, request: Request, now: Time, s: Id)
    requires request.RequestPassword? && Serves(Apply(db, cfg, request, now).1, s)
    ensures Apply(db, cfg, request, now).1.Tokens? && s == db.supply
  {
    hide Distinct, NewSession, AddRow, NewRefresh, CommonClaims, AccessExpiry, ActiveKeys, MayIssue;
  }

  lemma ServedLogin(db: Db, cfg: Config, request: Request, now: Time, s: Id)
    requires request.RequestLogin? && Serves(Apply(db, cfg, request, now).1, s)
    ensures Apply(db, cfg, request, now).1.CodeIssued? && s == db.supply
  {
    hide RequestAllowed, MayCreateSession, NewSession, WithCode, Eligible;
  }

  /** The idle timeout as a law over runs: a session that was begun or used at `now`, and
      that nobody uses in the idle lifetime its realm has at that moment, is ended then,
      whatever else happens in between. */
  lemma IdleSessionsEnd(db: Db, cfg: Config, request: Request, clock: Time, now: Time, s: Id, steps: seq<Step>,
                        later: Time)
    requires Inv(db, clock) && clock <= now && Begins(db, cfg, request, now, s)
    requires Ordered(steps, now) && Unused(steps, s) && Clock(steps, now) <= later
    ensures var after := Apply(db, cfg, request, now).0;
            && s in after.sessions && after.sessions[s].realm in db.ids.realms
            && (now + Lifetime(db.ids.realms[after.sessions[s].realm].idleSeconds, cfg.idleSeconds) * SECOND <= later
                ==> Ended(Run(after, cfg, steps), s, later))
  {
    hide Apply, Run, Inv, Begins, Ordered, Unused, Lifetime;
    ServedIdle(db, cfg, request, clock, now, s);
    var row := Apply(db, cfg, request, now).0.sessions[s];
    if now + Lifetime(db.ids.realms[row.realm].idleSeconds, cfg.idleSeconds) * SECOND <= later {
      ClockAdvances(db, clock, now);
      ApplyKeepsInv(db, cfg, request, now);
      UnusedSessionsEnd(Apply(db, cfg, request, now).0, cfg, steps, s, now, later);
    }
  }
}

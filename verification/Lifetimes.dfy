/** What can only move forward: expired or revoked sessions, used tokens and
    consumed codes. */
module Lifetimes {
  import opened Prelude
  import opened Tables
  import opened Protocol
  import opened Invariants
  import opened Retention
  import opened Removal
  import opened RealmRemoval
  import opened Steps
  import opened Server

  // ---------------------------------------------------------------- one transaction

  /** The identity and maximum of a session never change, its revocation time is
      written once, and only a live session is extended. */
  predicate SessionForward(x: UserSession, y: UserSession, now: Time) {
    && y.realm == x.realm && y.user == x.user && y.authTime == x.authTime && y.maxExpires == x.maxExpires
    && (x.revokedAt.Some? ==> y.revokedAt == x.revokedAt)
    && (y.idleExpires != x.idleExpires ==> Live(x, now))
  }

  predicate CodeForward(x: Code, y: Code) {
    y == x.(consumedAt := y.consumedAt) && (x.consumedAt.Some? ==> y.consumedAt == x.consumedAt)
  }

  predicate TokenForward(x: RefreshToken, y: RefreshToken) {
    && y == x.(usedAt := y.usedAt, revokedAt := y.revokedAt, replacedBy := y.replacedBy)
    && (x.usedAt.Some? ==> y.usedAt == x.usedAt)
    && (x.revokedAt.Some? ==> y.revokedAt == x.revokedAt)
  }

  ghost predicate SessionsForward(a: map<Id, UserSession>, b: map<Id, UserSession>, supply: Id, now: Time) {
    forall s | s in b && s < supply :: s in a && SessionForward(a[s], b[s], now)
  }

  ghost predicate CodesForward(a: map<Id, Code>, b: map<Id, Code>, supply: Id) {
    forall c | c in b && c < supply :: c in a && CodeForward(a[c], b[c])
  }

  ghost predicate TokensForward(a: map<Id, RefreshToken>, b: map<Id, RefreshToken>, supply: Id) {
    forall t | t in b && t < supply :: t in a && TokenForward(a[t], b[t])
  }

  /** A client or realm that was deleted stays deleted: an identifier already
      drawn is not used again. */
  ghost predicate NamesForward(a: Identities, b: Identities, supply: Id) {
    && (forall c | c in b.clients && c < supply :: c in a.clients)
    && (forall r | r in b.realms && r < supply :: r in a.realms)
  }

  /** A token is revoked exactly when its session is. */
  ghost predicate Together(sessions: map<Id, UserSession>, tokens: map<Id, RefreshToken>) {
    forall t | t in tokens ::
      && tokens[t].session in sessions && tokens[t].realm == sessions[tokens[t].session].realm
      && (tokens[t].revokedAt.Some? <==> sessions[tokens[t].session].revokedAt.Some?)
  }

  ghost predicate RevokedTogether(db: Db) {
    Below(db.sessions, db.supply) && Together(db.sessions, db.tokens)
  }

  /** No signing key of a realm that still exists is lost. */
  ghost predicate KeysForward(a: Db, b: Db) {
    forall k | k in a.keys && k < a.supply && a.keys[k].realm < a.supply && a.keys[k].realm in b.ids.realms ::
      k in b.keys && KeyForward(a.keys[k], b.keys[k])
  }

  /** Rows that disappeared do not come back: an identifier already drawn belongs
      to a row of the earlier state or to none. */
  ghost predicate Forward(a: Db, b: Db, now: Time) {
    && a.supply <= b.supply && SessionsForward(a.sessions, b.sessions, a.supply, now)
    && CodesForward(a.codes, b.codes, a.supply) && TokensForward(a.tokens, b.tokens, a.supply)
    && NamesForward(a.ids, b.ids, a.supply) && KeysForward(a, b)
    && (RevokedTogether(a) ==> RevokedTogether(b))
  }

  lemma ForwardThrough(a: Db, b: Db, c: Db, now: Time)
    requires Forward(a, b, now) && Forward(b, c, now)
    ensures Forward(a, c, now)
  {
    hide RevokedTogether;
  }

  lemma SameRowsForward(a: Db, b: Db, now: Time)
    requires a.supply <= b.supply && b.sessions == a.sessions && b.codes == a.codes && b.tokens == a.tokens
    requires b.ids == a.ids || NamesForward(a.ids, b.ids, a.supply)
    requires b.keys == a.keys || KeysForward(a, b)
    ensures Forward(a, b, now)
  {}

  lemma SweepForward(tokens: map<Id, RefreshToken>, realm: Id, sid: Id, at: Time, supply: Id)
    ensures TokensForward(tokens, Swept(tokens, realm, sid, at), supply)
  {}

  lemma SweepTogether(sessions: map<Id, UserSession>, tokens: map<Id, RefreshToken>, sid: Id, realm: Id, at: Time)
    requires Together(sessions, tokens) && sid in sessions && sessions[sid].realm == realm
    ensures Together(sessions[sid := sessions[sid].(revokedAt := Some(at))], Swept(tokens, realm, sid, at))
  {}

  lemma RevokeForward(db: Db, sid: Id, realm: Id, now: Time)
    ensures Forward(db, Revoke(db, sid, realm, now), now)
  {
    hide TokensForward, Swept, Live, Together, KeyForward, Revoke;
    if sid in db.sessions && db.sessions[sid].realm == realm {
      var s := db.sessions[sid];
      var at := if s.revokedAt.Some? then s.revokedAt.value else now;
      SweepForward(db.tokens, realm, sid, at, db.supply);
      if RevokedTogether(db) { SweepTogether(db.sessions, db.tokens, sid, realm, at); }
      RevokedState(db, sid, realm, now);
      var after := db.(sessions := db.sessions[sid := s.(revokedAt := Some(at))],
                       tokens := Swept(db.tokens, realm, sid, at));
      SameKeysForward(db, after);
      hide KeysForward, RevokedTogether;
      assert Forward(db, after, now);
    } else {
      SameRowsForward(db, db, now);
      if sid in db.sessions { NotRevoked(db, sid, realm, now); } else { AbsentNotRevoked(db, sid, realm, now); }
    }
  }

  lemma AbsentNotRevoked(db: Db, sid: Id, realm: Id, now: Time)
    requires sid !in db.sessions
    ensures Revoke(db, sid, realm, now) == db
  {}

  lemma SameKeysForward(a: Db, b: Db)
    requires b.keys == a.keys
    ensures KeysForward(a, b)
  {}

  lemma IssueTogether(db: Db, cfg: Config, realm: Id, client: Id, sid: Id, scope: Scope,
                      nonce: Option<string>, parent: Option<Id>, now: Time)
    requires parent.Some? ==> parent.value in db.tokens
    requires IssueTokens(db, cfg, realm, client, sid, scope, nonce, parent, now).Issued?
    ensures RevokedTogether(db) ==>
      RevokedTogether(IssueTokens(db, cfg, realm, client, sid, scope, nonce, parent, now).db)
  {
    hide ActiveKeys, CommonClaims, Min, After, Authenticated;
  }

  lemma IssueForward(db: Db, cfg: Config, realm: Id, client: Id, sid: Id, scope: Scope,
                     nonce: Option<string>, parent: Option<Id>, now: Time)
    requires parent.Some? ==> parent.value in db.tokens
    requires IssueTokens(db, cfg, realm, client, sid, scope, nonce, parent, now).Issued?
    ensures Forward(db, IssueTokens(db, cfg, realm, client, sid, scope, nonce, parent, now).db, now)
  {
    IssueTogether(db, cfg, realm, client, sid, scope, nonce, parent, now);
    hide MayIssue, ActiveKeys, CommonClaims, Min, After, RevokedTogether;
  }

  lemma ConsumeForward(db: Db, cfg: Config, t: Id, now: Time)
    requires t in db.tokens && db.tokens[t].session in db.sessions && db.tokens[t].usedAt.None?
    requires db.sessions[db.tokens[t].session].realm in db.ids.realms
    requires Live(db.sessions[db.tokens[t].session], now)
    ensures Forward(db, ConsumeAndExtend(db, cfg, t, now), now)
  {
    hide Min, After;
  }

  lemma RefreshForward(db: Db, cfg: Config, realm: Id, client: Id, raw: Jwt, narrowed: Option<Scope>, now: Time)
    ensures Forward(db, RefreshGrant(db, cfg, realm, client, raw, narrowed, now).0, now)
  {
    hide Decodes, RefreshMatches, IssueTokens, Revoke, ConsumeAndExtend, Distinct, Narrows, Forward, Expired;
    SameRowsForward(db, db, now);
    var t, sid := raw.claims.jti, raw.claims.sid;
    if RefreshGrant(db, cfg, realm, client, raw, narrowed, now).0 != db {
      if db.tokens[t].usedAt.Some? {
        var revoked := Revoke(db, sid, realm, now);
        RevokeForward(db, sid, realm, now);
        var after := RefreshGrant(db, cfg, realm, client, raw, narrowed, now).0;
        SameRowsForward(revoked, after, now);
        ForwardThrough(db, revoked, after, now);
      } else {
        var requested := Distinct(if narrowed.Some? then narrowed.value else db.tokens[t].scope);
        var consumed := ConsumeAndExtend(db, cfg, t, now);
        ConsumeForward(db, cfg, t, now);
        ConsumeKeepsRow(db, cfg, t, now);
        IssueForward(consumed, cfg, realm, client, sid, requested, None, Some(t), now);
        var issued := IssueTokens(consumed, cfg, realm, client, sid, requested, None, Some(t), now).db;
        var after := RefreshGrant(db, cfg, realm, client, raw, narrowed, now).0;
        ForwardThrough(db, consumed, issued, now);
        SameRowsForward(issued, after, now);
        ForwardThrough(db, issued, after, now);
      }
    }
  }

  lemma ConsumeKeepsRow(db: Db, cfg: Config, t: Id, now: Time)
    requires t in db.tokens && db.tokens[t].session in db.sessions
    requires db.sessions[db.tokens[t].session].realm in db.ids.realms
    ensures t in ConsumeAndExtend(db, cfg, t, now).tokens
  {}

  lemma ExchangeForward(db: Db, cfg: Config, realm: Id, client: Id, raw: Id, uri: string,
                        verifier: Option<string>, now: Time)
    ensures Forward(db, ExchangeGrant(db, cfg, realm, client, raw, uri, verifier, now).0, now)
  {
    hide IssueTokens, ProofAccepted, Forward;
    SameRowsForward(db, db, now);
    if ExchangeGrant(db, cfg, realm, client, raw, uri, verifier, now).0 != db {
      var code := db.codes[raw];
      var claimed := PutCode(db, raw, code.(consumedAt := Some(now)));
      assert Forward(db, claimed, now) by { ClaimForward(db, raw, now); }
      IssueForward(claimed, cfg, realm, client, code.session, code.params.scope, code.params.nonce, None, now);
      var issued := IssueTokens(claimed, cfg, realm, client, code.session, code.params.scope,
                                code.params.nonce, None, now).db;
      var after := ExchangeGrant(db, cfg, realm, client, raw, uri, verifier, now).0;
      ForwardThrough(db, claimed, issued, now);
      SameRowsForward(issued, after, now);
      ForwardThrough(db, issued, after, now);
    }
  }

  lemma ClaimForward(db: Db, c: Id, now: Time)
    requires c in db.codes && db.codes[c].consumedAt.None?
    ensures Forward(db, PutCode(db, c, db.codes[c].(consumedAt := Some(now))), now)
  {}

  lemma AddSessionForward(db: Db, row: UserSession, n: nat, now: Time)
    requires 0 < n
    ensures Forward(db, PutSession(Draw(db, n), db.supply, row), now)
  {}

  lemma PasswordForward(db: Db, cfg: Config, realm: Id, client: Id, user: Id, scope: Scope, now: Time)
    ensures Forward(db, PasswordGrant(db, cfg, realm, client, user, scope, now).0, now)
  {
    hide IssueTokens, NewSession, Distinct, Forward;
    SameRowsForward(db, db, now);
    if PasswordGrant(db, cfg, realm, client, user, scope, now).0 != db {
      var row := NewSession(db, cfg, realm, client, user, now);
      AddSessionForward(db, row, 1, now);
      var created := PutSession(Draw(db, 1), db.supply, row);
      IssueForward(created, cfg, realm, client, db.supply, Distinct(scope), None, None, now);
      var issued := IssueTokens(created, cfg, realm, client, db.supply, Distinct(scope), None, None, now).db;
      var after := PasswordGrant(db, cfg, realm, client, user, scope, now).0;
      ForwardThrough(db, created, issued, now);
      SameRowsForward(issued, after, now);
      ForwardThrough(db, issued, after, now);
    }
  }

  lemma WithCodeForward(a: Db, db: Db, cfg: Config, client: Id, sid: Id, params: AuthParams, c: Id, now: Time)
    requires Forward(a, db, now) && sid in db.sessions && db.sessions[sid].realm in db.ids.realms
    requires a.supply <= c
    ensures Forward(a, WithCode(db, cfg, client, sid, params, c, now), now)
  {
    hide NewCode;
  }

  lemma ReusedForward(db: Db, cfg: Config, realm: Id, client: Id, sid: Id, params: AuthParams, now: Time)
    requires Eligible(db, sid, realm, now)
    ensures Forward(db, Reused(db, cfg, realm, client, sid, params, now), now)
  {
    hide NewAuth, Min, After;
  }

  lemma LoginPageForward(db: Db, realm: Id, client: Id, params: AuthParams, now: Time)
    requires realm in db.ids.realms
    ensures Forward(db, PutAuth(Draw(db, 1), db.supply, NewAuth(db, realm, client, params, None, now)), now)
  {
    hide NewAuth;
  }

  lemma AuthorizeForward(db: Db, cfg: Config, realm: Id, client: Id, cookie: Option<Id>, params: AuthParams, now: Time)
    ensures Forward(db, Authorize(db, cfg, realm, client, cookie, params, now).0, now)
  {
    hide NewAuth, WithCode, Reused, Forward, PutAuth;
    SameRowsForward(db, db, now);
    if Authorize(db, cfg, realm, client, cookie, params, now).0 != db {
      if cookie.Some? && Eligible(db, cookie.value, realm, now) {
        ReusedForward(db, cfg, realm, client, cookie.value, params, now);
        ReusedFrame(db, cfg, realm, client, cookie.value, params, now);
        WithCodeForward(db, Reused(db, cfg, realm, client, cookie.value, params, now), cfg, client,
                        cookie.value, params, db.supply + 1, now);
      } else {
        LoginPageForward(db, realm, client, params, now);
      }
    }
  }

  lemma CompleteLoginForward(db: Db, cfg: Config, tab: Id, user: Id, now: Time)
    ensures Forward(db, CompleteLogin(db, cfg, tab, user, now).0, now)
  {
    hide NewSession, WithCode, Expired, Forward, RequestAllowed, IdentitiesEnabled;
    SameRowsForward(db, db, now);
    if CompleteLogin(db, cfg, tab, user, now).0 != db {
      var auth := db.authSessions[tab];
      NewSessionUser(db, cfg, auth.realm, auth.client, user, now);
      var row := NewSession(db, cfg, auth.realm, auth.client, user, now);
      AddSessionForward(db, row, 2, now);
      var created := PutSession(Draw(db, 2), db.supply, row);
      var marked := PutAuth(created, tab, auth.(selectedUser := Some(user), authenticated := true));
      SameRowsForward(created, marked, now);
      ForwardThrough(db, created, marked, now);
      WithCodeForward(db, marked, cfg, auth.client, db.supply, auth.params, db.supply + 1, now);
    }
  }

  lemma HintLogoutForward(db: Db, realm: Id, raw: Jwt, audience: Option<string>, now: Time)
    ensures Forward(db, LogoutByHint(db, realm, raw, audience, now).0, now)
  {
    hide HintVerifies, Revoke, Forward;
    var after := LogoutByHint(db, realm, raw, audience, now).0;
    SameRowsForward(db, db, now);
    if after != db {
      assert HintVerifies(db, raw, realm, if audience.Some? then audience.value else raw.claims.aud, now);
      RevokeForward(db, raw.claims.sid, realm, now);
      SameRowsForward(Revoke(db, raw.claims.sid, realm, now), after, now);
      ForwardThrough(db, Revoke(db, raw.claims.sid, realm, now), after, now);
    }
  }

  lemma RefreshLogoutForward(db: Db, realm: Id, client: Id, raw: Jwt, now: Time)
    ensures Forward(db, LogoutByRefresh(db, realm, client, raw, now).0, now)
  {
    hide Verifies, Revoke, Forward;
    var after := LogoutByRefresh(db, realm, client, raw, now).0;
    SameRowsForward(db, db, now);
    if after != db {
      RevokeForward(db, raw.claims.sid, realm, now);
      SameRowsForward(Revoke(db, raw.claims.sid, realm, now), after, now);
      ForwardThrough(db, Revoke(db, raw.claims.sid, realm, now), after, now);
    }
  }

  lemma BatchTogether(db: Db, cutoff: Time, batch: Batch)
    requires RevokedTogether(db) && BatchFits(db, cutoff, batch)
    ensures RevokedTogether(DropBatch(db, batch))
  {
    hide UnlinkEvents, UnlinkMails, StaleAuths, StaleCodes, StaleBuckets, StaleTokens, StaleSessions;
  }

  lemma BatchForward(db: Db, cutoff: Time, batch: Batch, now: Time)
    requires BatchFits(db, cutoff, batch)
    ensures Forward(db, DropBatch(db, batch), now)
  {
    if RevokedTogether(db) { BatchTogether(db, cutoff, batch); }
    hide RevokedTogether, UnlinkEvents, UnlinkMails, BatchFits;
  }

  /** The session of another client's token survives, under that or another client. */
  lemma SessionOfOtherSurvives(db: Db, c: Id, owners: map<Id, Id>, t: Id)
    requires Rehomes(db, c, owners) && t in db.tokens && db.tokens[t].client != c
    requires db.tokens[t].session in db.sessions
    ensures var s := db.tokens[t].session; var after := DeleteClient(db, c, owners).sessions;
            s in after && after[s] == db.sessions[s].(client := after[s].client)
  {
    hide CodeOfOther, ForgetClient, UnlinkEvents, DoomedMails, OwnedAuths;
    var s := db.tokens[t].session;
    if OwnedBy(db.sessions, s, c) {
      assert TokenOfOther(db.tokens, s, c);
      assert NewOwner(db.tokens, db.codes, s, c, owners[s]);
    }
  }

  lemma DeleteClientTogether(db: Db, c: Id, owners: map<Id, Id>)
    requires Rehomes(db, c, owners) && RevokedTogether(db)
    ensures RevokedTogether(DeleteClient(db, c, owners))
  {
    hide Rehomes, ForgetClient, UnlinkEvents, DoomedMails, OwnedAuths;
    var after := DeleteClient(db, c, owners);
    forall t | t in after.tokens
      ensures after.tokens[t].session in after.sessions
      ensures after.tokens[t].realm == after.sessions[after.tokens[t].session].realm
      ensures after.tokens[t].revokedAt.Some? <==> after.sessions[after.tokens[t].session].revokedAt.Some?
    {
      SessionOfOtherSurvives(db, c, owners, t);
    }
  }

  lemma DeleteClientForward(db: Db, c: Id, owners: map<Id, Id>, now: Time)
    requires Rehomes(db, c, owners)
    ensures Forward(db, DeleteClient(db, c, owners), now)
  {
    if RevokedTogether(db) { DeleteClientTogether(db, c, owners); }
    hide Rehomes, RevokedTogether, ForgetClient, UnlinkEvents, DoomedMails;
  }

  lemma DeleteRealmForward(db: Db, r: Id, now: Time)
    ensures Forward(db, DeleteRealm(db, r), now)
  {}

  lemma ProtocolForward(db: Db, cfg: Config, request: Request, now: Time)
    requires request.RequestRefresh? || request.RequestExchange? || request.RequestPassword?
             || request.RequestAuthorize? || request.RequestLogin?
             || request.RequestHintLogout? || request.RequestRefreshLogout?
    ensures Forward(db, Apply(db, cfg, request, now).0, now)
  {
    hide RefreshGrant, ExchangeGrant, PasswordGrant, Authorize, CompleteLogin,
         LogoutByHint, LogoutByRefresh, Forward;
    match request
    case RequestRefresh(realm, client, raw, narrowed) => RefreshForward(db, cfg, realm, client, raw, narrowed, now);
    case RequestExchange(realm, client, code, uri, verifier) =>
      ExchangeForward(db, cfg, realm, client, code, uri, verifier, now);
    case RequestPassword(realm, client, user, scope) => PasswordForward(db, cfg, realm, client, user, scope, now);
    case RequestAuthorize(realm, client, cookie, params) =>
      AuthorizeForward(db, cfg, realm, client, cookie, params, now);
    case RequestLogin(tab, user) => CompleteLoginForward(db, cfg, tab, user, now);
    case RequestHintLogout(realm, raw, audience) => HintLogoutForward(db, realm, raw, audience, now);
    case RequestRefreshLogout(realm, client, raw) => RefreshLogoutForward(db, realm, client, raw, now);
    case _ =>
  }

  lemma ChangedNames(ids: Identities, change: Change, next: Id)
    requires Verdict(ids, change) == Done
    ensures NamesForward(ids, Changed(ids, change, next), next)
  {
    hide ClientIdTaken;
  }

  lemma AdministerForward(db: Db, change: Change, now: Time)
    ensures Forward(db, Administer(db, change).0, now)
  {
    hide Forward, Verdict, Changed, NamesForward;
    SameRowsForward(db, db, now);
    if Verdict(db.ids, change) == Done {
      var after := Administer(db, change).0;
      ChangedNames(db.ids, change, db.supply);
      SameKeysForward(db, after);
      SameRowsForward(db, after, now);
    }
  }

  lemma KeyAndBucketForward(db: Db, cfg: Config, request: Request, now: Time)
    requires request.RequestFailure? || request.RequestBlocked? || request.RequestClear?
             || request.RequestEnsureKey? || request.RequestRotateKey? || request.RequestVerify?
    ensures OnlyKeys(db, Apply(db, cfg, request, now).0) || OnlyBuckets(db, Apply(db, cfg, request, now).0)
  {
    hide EnsureKey, RotateKey, CountFailure, ClearFailures, AskBlocked, OnlyKeys, Verifies;
  }

  lemma OnlyKeysForward(a: Db, b: Db, now: Time)
    requires OnlyKeys(a, b)
    ensures Forward(a, b, now)
  {
    hide Forward;
    SameRowsForward(a, b, now);
  }

  lemma OnlyBucketsForward(a: Db, b: Db, now: Time)
    requires OnlyBuckets(a, b)
    ensures Forward(a, b, now)
  {
    hide Forward;
    SameRowsForward(a, b, now);
  }

  /** Every request only moves sessions, codes and tokens forward. */
  lemma ApplyForward(db: Db, cfg: Config, request: Request, now: Time)
    ensures Forward(db, Apply(db, cfg, request, now).0, now)
  {
    hide Forward, DeleteClient, DeleteRealm, DropBatch, BatchFits, Rehomes, Owners, Administer;
    SameRowsForward(db, db, now);
    match request
    case RequestBatch(cutoff, batch) =>
      if BatchFits(db, cutoff, batch) { BatchForward(db, cutoff, batch, now); }
    case RequestDeleteClient(client, pick) =>
      OwnersFit(db, client, pick);
      DeleteClientForward(db, client, Owners(db, client, pick), now);
    case RequestDeleteRealm(realm) => DeleteRealmForward(db, realm, now);
    case RequestAdminister(change) => AdministerForward(db, change, now);
    case _ => OtherForward(db, cfg, request, now);
  }

  lemma OtherForward(db: Db, cfg: Config, request: Request, now: Time)
    requires !request.RequestBatch? && !request.RequestDeleteClient? && !request.RequestDeleteRealm?
    requires !request.RequestAdminister?
    ensures Forward(db, Apply(db, cfg, request, now).0, now)
  {
    hide Apply, Forward, OnlyKeys, OnlyBuckets;
    if request.RequestRefresh? || request.RequestExchange? || request.RequestPassword?
       || request.RequestAuthorize? || request.RequestLogin?
       || request.RequestHintLogout? || request.RequestRefreshLogout?
    {
      ProtocolForward(db, cfg, request, now);
    } else {
      KeyAndBucketForward(db, cfg, request, now);
      if OnlyKeys(db, Apply(db, cfg, request, now).0) {
        OnlyKeysForward(db, Apply(db, cfg, request, now).0, now);
      } else {
        OnlyBucketsForward(db, Apply(db, cfg, request, now).0, now);
      }
    }
  }
}

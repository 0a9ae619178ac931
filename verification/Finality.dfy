/** What holds over whole runs because rows only move forward: lifetimes are
    bounded, ended sessions stay ended, and codes and refresh tokens work once. */
module Finality {
  import opened Prelude
  import opened Tables
  import opened Protocol
  import opened Invariants
  import opened Server
  import opened Lifetimes

  // ---------------------------------------------------------------- ended sessions

  /** The session has been drawn and is gone, revoked or expired. */
  predicate Ended(db: Db, s: Id, now: Time) {
    s < db.supply && (s in db.sessions ==> !Live(db.sessions[s], now))
  }

  lemma EndedStays(a: Db, b: Db, s: Id, since: Time, now: Time)
    requires Forward(a, b, now) && Ended(a, s, since) && since <= now
    ensures Ended(b, s, now)
  {}

  lemma {:induction false} EndedThroughRun(db: Db, cfg: Config, steps: seq<Step>, s: Id, start: Time)
    requires Ended(db, s, start) && Ordered(steps, start)
    ensures Ended(Run(db, cfg, steps), s, Clock(steps, start))
    decreases |steps|
  {
    hide Ended, Apply, Forward;
    if steps != [] {
      var first := steps[0];
      var after := Apply(db, cfg, first.request, first.now).0;
      ApplyForward(db, cfg, first.request, first.now);
      EndedStays(db, after, s, start, first.now);
      EndedThroughRun(after, cfg, steps[1..], s, first.now);
    }
  }

  /** The reply hands out or confirms something that belongs to session `s`. */
  predicate Serves(reply: Reply, s: Id) {
    || (reply.Tokens? && reply.response.session == s)
    || (reply.CodeIssued? && reply.codeSession == s)
    || (reply.Verified? && reply.claims.sid == s)
  }

  lemma GrantNeedsLive(db: Db, cfg: Config, request: Request, now: Time, s: Id)
    requires request.RequestRefresh? || request.RequestExchange? || request.RequestVerify?
    requires Serves(Apply(db, cfg, request, now).1, s)
    ensures s in db.sessions && Live(db.sessions[s], now)
  {
    hide Decodes, RefreshMatches, ProofAccepted, Narrows, Distinct, ActiveKeys, NewRefresh, CommonClaims,
         ConsumeAndExtend, AccessExpiry, AddRow, EnabledAudience, Revoke, MayIssue, IdentitiesEnabled;
  }

  lemma LoginNeedsLive(db: Db, cfg: Config, request: Request, now: Time, s: Id)
    requires request.RequestPassword? || request.RequestAuthorize? || request.RequestLogin?
    requires Serves(Apply(db, cfg, request, now).1, s)
    ensures s == db.supply || (s in db.sessions && Live(db.sessions[s], now))
  {
    hide NewAuth, WithCode, Reused, RequestAllowed, NewSession, ActiveKeys, NewRefresh, CommonClaims,
         AccessExpiry, AddRow, MayIssue, IdentitiesEnabled, Distinct;
  }

  /** A reply serves only a session that is live, or one it has just created. */
  lemma ServedSessionsLive(db: Db, cfg: Config, request: Request, now: Time, s: Id)
    requires Serves(Apply(db, cfg, request, now).1, s)
    ensures s == db.supply || (s in db.sessions && Live(db.sessions[s], now))
  {
    if request.RequestRefresh? || request.RequestExchange? || request.RequestVerify? {
      GrantNeedsLive(db, cfg, request, now, s);
    } else if request.RequestPassword? || request.RequestAuthorize? || request.RequestLogin? {
      LoginNeedsLive(db, cfg, request, now, s);
    }
  }

  /** Once a session is gone, revoked or expired, no request of any later state
      is served from it: no token, no code, no successful verification. */
  lemma EndedSessionsServeNothing(db: Db, cfg: Config, steps: seq<Step>, s: Id, start: Time,
                                  request: Request, now: Time)
    requires Ended(db, s, start) && Ordered(steps, start) && Clock(steps, start) <= now
    ensures !Serves(Apply(Run(db, cfg, steps), cfg, request, now).1, s)
  {
    hide Apply, Serves;
    EndedThroughRun(db, cfg, steps, s, start);
    if Serves(Apply(Run(db, cfg, steps), cfg, request, now).1, s) {
      ServedSessionsLive(Run(db, cfg, steps), cfg, request, now, s);
    }
  }

  /** Reuse of a refresh token and both logouts end the session at once. */
  lemma RevocationEnds(db: Db, cfg: Config, request: Request, now: Time)
    requires Inv(db, now)
    requires request.RequestRefresh? || request.RequestHintLogout? || request.RequestRefreshLogout?
    requires Apply(db, cfg, request, now).1 in {Done, Refused(RefreshReuse)}
    ensures Ended(Apply(db, cfg, request, now).0, request.raw.claims.sid, now)
    ensures forall t | t in Apply(db, cfg, request, now).0.tokens ::
      var row := Apply(db, cfg, request, now).0.tokens[t];
      row.session == request.raw.claims.sid ==> row.revokedAt.Some?
  {
    var after := Apply(db, cfg, request, now).0;
    var sid, realm := request.raw.claims.sid, request.realm;
    RevocationLogged(db, cfg, request, now);
    hide Apply;
    RevokedCompletely(db, sid, realm, now);
  }

  lemma RevocationLogged(db: Db, cfg: Config, request: Request, now: Time)
    requires request.RequestRefresh? || request.RequestHintLogout? || request.RequestRefreshLogout?
    requires Apply(db, cfg, request, now).1 in {Done, Refused(RefreshReuse)}
    ensures var after, sid := Apply(db, cfg, request, now).0, request.raw.claims.sid;
            && sid in db.sessions && db.sessions[sid].realm == request.realm
            && after.sessions == Revoke(db, sid, request.realm, now).sessions
            && after.tokens == Revoke(db, sid, request.realm, now).tokens && db.supply <= after.supply
  {
    hide Decodes, RefreshMatches, Narrows, Distinct, ConsumeAndExtend, EnabledAudience, Swept, ClientNamed,
         MayIssue, ActiveKeys, NewRefresh, CommonClaims, AccessExpiry, AddRow;
  }

  lemma RevokedCompletely(db: Db, sid: Id, realm: Id, now: Time)
    requires Inv(db, now) && sid in db.sessions && db.sessions[sid].realm == realm
    ensures sid < db.supply && var after := Revoke(db, sid, realm, now);
            && sid in after.sessions && after.sessions[sid].revokedAt.Some?
            && forall t | t in after.tokens && after.tokens[t].session == sid :: after.tokens[t].revokedAt.Some?
  {
    hide IdentityRefs, KeyTable, BucketTable, AuthTable, MailTable, EventTable, SessionTable, CodeTable,
         LinkTable, FamiliesOk, RowsOk, KeysOk;
    forall t | t in db.tokens && db.tokens[t].session == sid ensures db.tokens[t].realm == realm {
      assert TokenRefs(db.ids, db.sessions, db.tokens[t]);
    }
  }

  // ---------------------------------------------------------------- single use

  /** The code has been drawn and is gone or consumed. */
  predicate CodeSpent(db: Db, c: Id) {
    c < db.supply && (c in db.codes ==> db.codes[c].consumedAt.Some?)
  }

  predicate TokenSpent(db: Db, t: Id) {
    t < db.supply && (t in db.tokens ==> db.tokens[t].usedAt.Some?)
  }

  lemma {:induction false} SpentThroughRun(db: Db, cfg: Config, steps: seq<Step>, x: Id)
    ensures CodeSpent(db, x) ==> CodeSpent(Run(db, cfg, steps), x)
    ensures TokenSpent(db, x) ==> TokenSpent(Run(db, cfg, steps), x)
    decreases |steps|
  {
    hide Apply, SessionForward;
    if steps != [] {
      var first := steps[0];
      ApplyForward(db, cfg, first.request, first.now);
      SpentThroughRun(Apply(db, cfg, first.request, first.now).0, cfg, steps[1..], x);
    }
  }

  lemma ExchangeSpends(db: Db, cfg: Config, realm: Id, client: Id, raw: Id, uri: string,
                       verifier: Option<string>, now: Time)
    requires Inv(db, now) && ExchangeGrant(db, cfg, realm, client, raw, uri, verifier, now).1.Tokens?
    ensures CodeSpent(ExchangeGrant(db, cfg, realm, client, raw, uri, verifier, now).0, raw)
  {
    hide Integrity, FamiliesOk, RowsOk, KeysOk, MayIssue, ActiveKeys, NewRefresh, CommonClaims, AccessExpiry,
         ProofAccepted, Eligible;
  }

  lemma RefreshSpends(db: Db, cfg: Config, realm: Id, client: Id, raw: Jwt, narrowed: Option<Scope>, now: Time)
    requires Inv(db, now) && RefreshGrant(db, cfg, realm, client, raw, narrowed, now).1.Tokens?
    ensures TokenSpent(RefreshGrant(db, cfg, realm, client, raw, narrowed, now).0, raw.claims.jti)
  {
    hide Integrity, FamiliesOk, RowsOk, KeysOk, MayIssue, ActiveKeys, CommonClaims, AccessExpiry,
         Eligible, Decodes, RefreshMatches, Narrows, Distinct, Min, After, RefreshExpiry;
  }

  lemma SpentCodeRefused(db: Db, cfg: Config, realm: Id, client: Id, raw: Id, uri: string,
                         verifier: Option<string>, now: Time)
    requires CodeSpent(db, raw)
    ensures !ExchangeGrant(db, cfg, realm, client, raw, uri, verifier, now).1.Tokens?
  {}

  lemma SpentTokenRefused(db: Db, cfg: Config, realm: Id, client: Id, raw: Jwt, narrowed: Option<Scope>, now: Time)
    requires TokenSpent(db, raw.claims.jti)
    ensures !RefreshGrant(db, cfg, realm, client, raw, narrowed, now).1.Tokens?
  {
    hide Decodes, RefreshMatches, Narrows, Distinct, IssueTokens, Revoke, ConsumeAndExtend, Eligible;
  }

  /** An authorization code yields tokens at most once in any run. */
  lemma CodesWorkOnce(db: Db, cfg: Config, realm: Id, client: Id, raw: Id, uri: string,
                      verifier: Option<string>, now: Time, steps: seq<Step>,
                      realm': Id, client': Id, uri': string, verifier': Option<string>, now': Time)
    requires Inv(db, now) && ExchangeGrant(db, cfg, realm, client, raw, uri, verifier, now).1.Tokens?
    ensures var later := Run(ExchangeGrant(db, cfg, realm, client, raw, uri, verifier, now).0, cfg, steps);
            !ExchangeGrant(later, cfg, realm', client', raw, uri', verifier', now').1.Tokens?
  {
    hide Inv, ExchangeGrant, CodeSpent;
    var after := ExchangeGrant(db, cfg, realm, client, raw, uri, verifier, now).0;
    ExchangeSpends(db, cfg, realm, client, raw, uri, verifier, now);
    SpentThroughRun(after, cfg, steps, raw);
    SpentCodeRefused(Run(after, cfg, steps), cfg, realm', client', raw, uri', verifier', now');
  }

  /** A refresh token is redeemed at most once in any run. */
  lemma RefreshTokensWorkOnce(db: Db, cfg: Config, realm: Id, client: Id, raw: Jwt, narrowed: Option<Scope>,
                              now: Time, steps: seq<Step>,
                              realm': Id, client': Id, narrowed': Option<Scope>, now': Time)
    requires Inv(db, now) && RefreshGrant(db, cfg, realm, client, raw, narrowed, now).1.Tokens?
    ensures var later := Run(RefreshGrant(db, cfg, realm, client, raw, narrowed, now).0, cfg, steps);
            !RefreshGrant(later, cfg, realm', client', raw, narrowed', now').1.Tokens?
  {
    hide Inv, RefreshGrant, TokenSpent;
    var after := RefreshGrant(db, cfg, realm, client, raw, narrowed, now).0;
    RefreshSpends(db, cfg, realm, client, raw, narrowed, now);
    SpentThroughRun(after, cfg, steps, raw.claims.jti);
    SpentTokenRefused(Run(after, cfg, steps), cfg, realm', client', raw, narrowed', now');
  }

  // ---------------------------------------------------------------- lifetimes

  lemma {:induction false} MaximumThroughRun(db: Db, cfg: Config, steps: seq<Step>, s: Id)
    requires s < db.supply
    ensures var after := Run(db, cfg, steps);
            s in after.sessions ==> s in db.sessions && after.sessions[s].maxExpires == db.sessions[s].maxExpires
                                    && after.sessions[s].user == db.sessions[s].user
    decreases |steps|
  {
    hide Apply, CodesForward, TokensForward;
    if steps != [] {
      var first := steps[0];
      ApplyForward(db, cfg, first.request, first.now);
      MaximumThroughRun(Apply(db, cfg, first.request, first.now).0, cfg, steps[1..], s);
    }
  }

  /** Through any run the maximum of a session stays what it was at login, its
      idle time and every stored refresh token end no later. */
  lemma LifetimesBounded(db: Db, cfg: Config, steps: seq<Step>, start: Time)
    requires Inv(db, start) && Ordered(steps, start)
    ensures var after := Run(db, cfg, steps);
            && (forall s | s in after.sessions && s < db.supply ::
                  s in db.sessions && after.sessions[s].maxExpires == db.sessions[s].maxExpires)
            && (forall s | s in after.sessions :: after.sessions[s].idleExpires <= after.sessions[s].maxExpires)
            && (forall t | t in after.tokens ::
                  && after.tokens[t].session in after.sessions
                  && after.tokens[t].expiresAt <= after.sessions[after.tokens[t].session].maxExpires)
  {
    RunKeepsInv(db, cfg, steps, start);
    var after := Run(db, cfg, steps);
    forall s | s in after.sessions && s < db.supply
      ensures s in db.sessions && after.sessions[s].maxExpires == db.sessions[s].maxExpires
    {
      MaximumThroughRun(db, cfg, steps, s);
    }
    assert RowsOk(after, Clock(steps, start));
    hide Integrity, FamiliesOk, Recorded, CreatedBy, KeysOk, Drawn, Run;
  }

  /** No token of a response outlives the session: the access and ID tokens end
      with its maximum, the refresh token with its idle time, floored to seconds. If
      the session lasts longer, each lives its own configured number of seconds. */
  lemma ResponsesBounded(db: Db, cfg: Config, realm: Id, client: Id, sid: Id, scope: Scope,
                         nonce: Option<string>, parent: Option<Id>, now: Time)
    requires parent.Some? ==> parent.value in db.tokens
    requires IssueTokens(db, cfg, realm, client, sid, scope, nonce, parent, now).Issued?
    ensures sid in db.sessions
    ensures var r := IssueTokens(db, cfg, realm, client, sid, scope, nonce, parent, now).response;
            && r.access.claims.exp * SECOND <= db.sessions[sid].maxExpires
            && r.refresh.claims.exp * SECOND <= db.sessions[sid].idleExpires
            && r.refresh.claims.exp * SECOND <= db.sessions[sid].maxExpires
            && (r.idToken.Some? ==> r.idToken.value.claims.exp == r.access.claims.exp)
            && r.expiresIn == r.access.claims.exp - r.access.claims.iat
            && r.refreshExpiresIn == r.refresh.claims.exp - r.refresh.claims.iat
            && 0 <= r.expiresIn && 0 <= r.refreshExpiresIn
    ensures var r := IssueTokens(db, cfg, realm, client, sid, scope, nonce, parent, now).response;
            var seconds := Lifetime(db.ids.realms[realm].accessSeconds, cfg.accessSeconds);
            && r.expiresIn <= seconds
            && (now + seconds * SECOND <= db.sessions[sid].maxExpires ==> r.expiresIn == seconds)
    ensures var r := IssueTokens(db, cfg, realm, client, sid, scope, nonce, parent, now).response;
            var seconds, s := Lifetime(db.ids.realms[realm].refreshSeconds, cfg.refreshSeconds), db.sessions[sid];
            && r.refreshExpiresIn <= seconds
            && (now + seconds * SECOND <= Min(s.idleExpires, s.maxExpires) ==> r.refreshExpiresIn == seconds)
  {
    var s := db.sessions[sid];
    var access := AccessExpiry(db, cfg, s, realm, now);
    var refresh := RefreshExpiry(db, cfg, s, realm, now);
    assert Floor(access) * SECOND <= access && Floor(refresh) * SECOND <= refresh;
    assert now <= access && now <= refresh;
    FloorMonotone(now, access);
    FloorMonotone(now, refresh);
    CappedSeconds(now, s.maxExpires, Lifetime(db.ids.realms[realm].accessSeconds, cfg.accessSeconds));
    CappedSeconds(now, Min(s.idleExpires, s.maxExpires),
                  Lifetime(db.ids.realms[realm].refreshSeconds, cfg.refreshSeconds));
    hide Floor;
  }

  /** A realm's own lifetime, or the default. */
  function Lifetime(own: Option<nat>, default: nat): nat {
    if own.Some? && own.value != 0 then own.value else default
  }

  lemma CappedSeconds(now: Time, cap: Time, seconds: nat)
    ensures Floor(Min(cap, now + seconds * SECOND)) <= Floor(now) + seconds
    ensures now + seconds * SECOND <= cap ==> Floor(Min(cap, now + seconds * SECOND)) == Floor(now) + seconds
  {
    assert Floor(now + seconds * SECOND) == Floor(now) + seconds;
    FloorMonotone(Min(cap, now + seconds * SECOND), now + seconds * SECOND);
  }

  lemma FloorMonotone(a: Time, b: Time)
    requires a <= b
    ensures Floor(a) <= Floor(b)
  {}

  // ---------------------------------------------------------------- signing keys

  lemma {:induction false} RealmsThroughRun(db: Db, cfg: Config, steps: seq<Step>, realm: Id)
    requires realm < db.supply && realm in Run(db, cfg, steps).ids.realms
    ensures realm in db.ids.realms
    decreases |steps|
  {
    hide Apply, SessionsForward, CodesForward, TokensForward, KeysForward, RevokedTogether;
    if steps != [] {
      ApplyForward(db, cfg, steps[0].request, steps[0].now);
      RealmsThroughRun(Apply(db, cfg, steps[0].request, steps[0].now).0, cfg, steps[1..], realm);
    }
  }

  lemma {:induction false} KeysThroughRun(db: Db, cfg: Config, steps: seq<Step>, k: Id)
    requires k in db.keys && k < db.supply && db.keys[k].realm < db.supply
    requires db.keys[k].realm in Run(db, cfg, steps).ids.realms
    ensures k in Run(db, cfg, steps).keys && KeyForward(db.keys[k], Run(db, cfg, steps).keys[k])
    decreases |steps|
  {
    hide Apply, SessionsForward, CodesForward, TokensForward, NamesForward, RevokedTogether;
    if steps != [] {
      var after := Apply(db, cfg, steps[0].request, steps[0].now).0;
      ApplyForward(db, cfg, steps[0].request, steps[0].now);
      RealmsThroughRun(after, cfg, steps[1..], db.keys[k].realm);
      KeysThroughRun(after, cfg, steps[1..], k);
    }
  }

  /** Over any run, while its realm exists, a signing key keeps its public part
      and, once inactive, every column; and the realm has exactly one active key. */
  lemma KeysNeverLost(db: Db, cfg: Config, steps: seq<Step>, k: Id, start: Time)
    requires Inv(db, start) && Ordered(steps, start) && k in db.keys
    requires db.keys[k].realm in Run(db, cfg, steps).ids.realms
    ensures var after := Run(db, cfg, steps);
            && k in after.keys && after.keys[k].publicPart == db.keys[k].publicPart
            && after.keys[k].realm == db.keys[k].realm
            && (!db.keys[k].active ==> after.keys[k] == db.keys[k])
            && (after.keys[k].active <==> after.keys[k].deactivatedAt.None?)
            && |ActiveKeys(after.keys, db.keys[k].realm)| == 1
  {
    hide Run, Integrity, FamiliesOk, RowsOk, ActiveKeys, Ordered;
    RunKeepsInv(db, cfg, steps, start);
    KeyRealmDrawn(db, k, start);
    KeysThroughRun(db, cfg, steps, k);
  }

  lemma KeyRealmDrawn(db: Db, k: Id, now: Time)
    requires Inv(db, now) && k in db.keys
    ensures k < db.supply && db.keys[k].realm < db.supply
  {
    hide IdentityRefs, BucketTable, AuthTable, MailTable, EventTable, SessionTable, CodeTable, TokenTable,
         LinkTable, FamiliesOk, RowsOk, KeysOk;
  }

  /** Provisioning leaves exactly one active key, and doing it again changes nothing. */
  lemma EnsureKeyIdempotent(db: Db, realm: Id, now: Time)
    requires Inv(db, now) && realm in db.ids.realms
    ensures var after := EnsureKey(db, realm).0;
            |ActiveKeys(after.keys, realm)| == 1 && EnsureKey(after, realm) == (after, Done)
  {
    hide Inv, ActiveKeys, OnlyKeys;
    AtMostOneActive(db, realm, now);
    if |ActiveKeys(db.keys, realm)| == 0 {
      FirstKeyActive(db, realm);
    }
  }

  lemma AtMostOneActive(db: Db, realm: Id, now: Time)
    requires Inv(db, now)
    ensures |ActiveKeys(db.keys, realm)| <= 1
  {
    hide Integrity, FamiliesOk, RowsOk, Drawn;
    if |ActiveKeys(db.keys, realm)| > 0 {
      var k :| k in ActiveKeys(db.keys, realm);
      assert |ActiveKeys(db.keys, db.keys[k].realm)| == 1;
    }
  }

  lemma FirstKeyActive(db: Db, realm: Id)
    requires |ActiveKeys(db.keys, realm)| == 0
    ensures ActiveKeys(db.keys[db.supply := Key(realm, true, db.supply + 1, true, None)], realm) == {db.supply}
    ensures |{db.supply}| == 1
  {
    assert ActiveKeys(db.keys, realm) == {};
    forall k | k in db.keys && k != db.supply ensures !IsActiveKey(db.keys[k], realm) {
      assert k !in ActiveKeys(db.keys, realm);
    }
  }

  /** After a rotation the new key is the active one and tokens signed before still decode. */
  lemma RotationKeepsVerifying(db: Db, realm: Id, raw: Jwt, audience: string, typ: TokenType, rotated: Time, now: Time)
    requires Inv(db, rotated) && RotateKey(db, realm, rotated).1 == Done
    requires Decodes(db, raw, realm, audience, typ, true, now)
    ensures var after := RotateKey(db, realm, rotated).0;
            ActiveKeys(after.keys, realm) == {db.supply} && Decodes(after, raw, realm, audience, typ, true, now)
  {
    hide Inv, Deactivated;
    KeysBelow(db, rotated);
    OnlyTheReplacement(db, realm, rotated);
  }

  lemma KeysBelow(db: Db, now: Time)
    requires Inv(db, now)
    ensures Below(db.keys, db.supply)
  {
    hide Integrity, FamiliesOk, RowsOk, KeysOk;
  }

  lemma OnlyTheReplacement(db: Db, realm: Id, now: Time)
    ensures ActiveKeys(Deactivated(db.keys, realm, now)[db.supply := Key(realm, true, db.supply + 1, true, None)],
                       realm)
            == {db.supply}
  {}
}

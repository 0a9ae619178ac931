/** Which reply each request gets, read off the columns of a sound database.

    Every reply is determined here by rows, flags and times alone, whatever functions
    the server computes it with. */
module Replies {
  import opened Prelude
  import opened Tables
  import opened Protocol
  import opened Invariants
  import opened Server
  import opened Completeness

  // ---------------------------------------------------------------- sessions

  /** The columns that decide whether a session is served: three rows enabled, not
      revoked, and both expiries in the future. */
  predicate Serving(ids: Identities, s: UserSession, now: Time)
    requires SessionRefs(ids, s)
  {
    && ids.realms[s.realm].enabled && ids.users[s.user].enabled && ids.clients[s.client].enabled
    && s.revokedAt.None? && now < s.idleExpires && now < s.maxExpires
  }

  lemma SessionRow(db: Db, sid: Id, clock: Time)
    requires Inv(db, clock) && sid in db.sessions
    ensures SessionRefs(db.ids, db.sessions[sid]) && sid < db.supply
    ensures db.sessions[sid].idleExpires <= db.sessions[sid].maxExpires
  {
    hide IdentityRefs, KeyTable, BucketTable, AuthTable, MailTable, EventTable, CodeTable, TokenTable, LinkTable,
         FamiliesOk, KeysOk, Recorded, CreatedBy, TokensBounded;
  }

  lemma EligibleIff(db: Db, sid: Id, realm: Id, clock: Time, now: Time)
    requires Inv(db, clock)
    ensures sid in db.sessions ==> SessionRefs(db.ids, db.sessions[sid])
    ensures Eligible(db, sid, realm, now) <==>
      sid in db.sessions && db.sessions[sid].realm == realm && Serving(db.ids, db.sessions[sid], now)
  {
    hide Inv;
    if sid in db.sessions { SessionRow(db, sid, clock); }
  }

  /** A realm and a client of it that are both enabled. */
  predicate Open(ids: Identities, realm: Id, client: Id) {
    && realm in ids.realms && ids.realms[realm].enabled
    && client in ids.clients && ids.clients[client].realm == realm && ids.clients[client].enabled
  }

  lemma OpenIsAuthenticated(db: Db, realm: Id, client: Id)
    ensures Open(db.ids, realm, client) <==> Authenticated(db, realm, client)
  {}

  // ---------------------------------------------------------------- refresh

  /** The reply to a stored refresh token, case by case. */
  lemma RefreshReplies(db: Db, cfg: Config, t: Id, narrowed: Option<Scope>, clock: Time, now: Time)
    requires Inv(db, clock) && clock <= now && cfg.Positive() && t in db.tokens
    ensures TokenRefs(db.ids, db.sessions, db.tokens[t])
    ensures SessionRefs(db.ids, db.sessions[db.tokens[t].session])
    ensures var row := db.tokens[t];
            var reply := RefreshGrant(db, cfg, row.realm, row.client, row.hash, narrowed, now).1;
            if !(db.ids.realms[row.realm].enabled && db.ids.clients[row.client].enabled)
            then reply == Refused(InvalidClient)
            else if !(Serving(db.ids, db.sessions[row.session], now) && row.revokedAt.None?
                      && now / SECOND < row.expiresAt / SECOND)
            then reply == Refused(InvalidGrant)
            else if row.usedAt.Some? then reply == Refused(RefreshReuse)
            else if narrowed.Some? && exists w :: w in narrowed.value && w !in row.scope
            then reply == Refused(InvalidScope)
            else reply.Tokens?
  {
    hide Inv, RefreshGrant, Floor, Serving;
    StoredFacts(db, t, clock);
    var row := db.tokens[t];
    SessionRow(db, row.session, clock);
    EligibleIff(db, row.session, row.realm, clock, now);
    OpenIsAuthenticated(db, row.realm, row.client);
    RefreshAcceptedIff(db, cfg, t, narrowed, clock, now);
    Seconds(now);
    Seconds(row.expiresAt);
    if Authenticated(db, row.realm, row.client) { RefreshRefusals(db, cfg, t, narrowed, clock, now); }
    else { ClientRefused(db, cfg, row.realm, row.client, row.hash, narrowed, now); }
    hide Authenticated, Eligible, RecordOf;
  }

  lemma Seconds(t: Time)
    ensures Floor(t) == t / SECOND
  {}

  lemma ClientRefused(db: Db, cfg: Config, realm: Id, client: Id, raw: Jwt, narrowed: Option<Scope>, now: Time)
    requires !Authenticated(db, realm, client)
    ensures RefreshGrant(db, cfg, realm, client, raw, narrowed, now) == (db, Refused(InvalidClient))
  {
    hide Authenticated;
  }

  lemma RefreshRefusals(db: Db, cfg: Config, t: Id, narrowed: Option<Scope>, clock: Time, now: Time)
    requires Inv(db, clock) && clock <= now && t in db.tokens
    requires Authenticated(db, db.tokens[t].realm, db.tokens[t].client)
    ensures var row := db.tokens[t];
            var reply := RefreshGrant(db, cfg, row.realm, row.client, row.hash, narrowed, now).1;
            var usable := Eligible(db, row.session, row.realm, now) && row.revokedAt.None?
                         && Floor(now) < Floor(row.expiresAt);
            && (!usable ==> reply == Refused(InvalidGrant))
            && (usable && row.usedAt.Some? ==> reply == Refused(RefreshReuse))
            && (usable && row.usedAt.None? && narrowed.Some? && !Narrows(narrowed.value, row.scope) ==>
                  reply == Refused(InvalidScope))
  {
    hide Inv, Decodes, IssueTokens, Distinct, ConsumeAndExtend, Revoke, ActiveKeys, OnlyRows, Live, IdentitiesEnabled,
         Authenticated, RecordOf, TokenRefs;
    StoredFacts(db, t, clock);
    StoredExpiry(db, t);
    if Floor(now) < Floor(db.tokens[t].expiresAt) { StoredTokenDecodes(db, t, true, clock, now); }
    hide Floor;
  }

  lemma StoredExpiry(db: Db, t: Id)
    requires t in db.tokens && RecordOf(db.ids, db.keys, db.sessions, t, db.tokens[t])
    ensures db.tokens[t].hash.claims.exp == Floor(db.tokens[t].expiresAt)
    ensures db.tokens[t].hash.claims.jti == t && db.tokens[t].hash.claims.sid == db.tokens[t].session
  {}

  /** Anything that is not the stored token of this very client is refused without a
      trace. */
  lemma ForeignRefreshRefused(db: Db, cfg: Config, realm: Id, client: Id, raw: Jwt, narrowed: Option<Scope>, now: Time)
    requires var t := raw.claims.jti;
             t !in db.tokens || db.tokens[t].hash != raw || db.tokens[t].realm != realm || db.tokens[t].client != client
    ensures RefreshGrant(db, cfg, realm, client, raw, narrowed, now)
            == (db, Refused(if Open(db.ids, realm, client) then InvalidGrant else InvalidClient))
  {
    hide Decodes, RefreshMatches, Eligible, IssueTokens, ConsumeAndExtend, Distinct, Narrows, Revoke;
  }

  // ---------------------------------------------------------------- codes

  predicate Unreserved(c: char) { c in UPPER || c in LOWER || c in DIGITS || c in "-._~" }

  /** Section 4.1 of RFC 7636. */
  predicate WellFormed(v: string) {
    43 <= |v| && |v| <= 128 && forall i | 0 <= i < |v| :: Unreserved(v[i])
  }

  lemma UpperIs(c: char)
    ensures c in UPPER <==> 'A' <= c <= 'Z'
  {
    if 'A' <= c <= 'Z' { assert UPPER[(c - 'A') as int] == c; }
  }

  lemma LowerIs(c: char)
    ensures c in LOWER <==> 'a' <= c <= 'z'
  {
    if 'a' <= c <= 'z' { assert LOWER[(c - 'a') as int] == c; }
  }

  lemma DigitIs(c: char)
    ensures c in DIGITS <==> '0' <= c <= '9'
  {
    if '0' <= c <= '9' { assert DIGITS[(c - '0') as int] == c; }
  }

  lemma UnreservedIs(c: char)
    ensures Unreserved(c) <==> VerifierChar(c)
  {
    hide UPPER, LOWER, DIGITS;
    UpperIs(c);
    LowerIs(c);
    DigitIs(c);
  }

  lemma WellFormedIs(v: string)
    ensures WellFormed(v) <==> VerifierShape(v)
  {
    hide VerifierChar, Unreserved;
    forall i | 0 <= i < |v| ensures Unreserved(v[i]) <==> VerifierChar(v[i]) { UnreservedIs(v[i]); }
  }

  /** Possession is proved: with a challenge by its verifier, without one by none, which
      only a client with the optional policy may do. */
  predicate Proof(params: AuthParams, policy: string, verifier: Option<string>) {
    match (params.challenge, params.challengeMethod, verifier)
    case (Some(S256Of(v)), Some(m), Some(given)) => m == "S256" && given == v && WellFormed(given)
    case (None, None, None) => policy == "optional"
    case _ => false
  }

  lemma ProofIs(params: AuthParams, policy: string, verifier: Option<string>)
    ensures Proof(params, policy, verifier) <==> ProofAccepted(params, policy, verifier)
  {
    hide WellFormed, VerifierShape;
    if verifier.Some? { WellFormedIs(verifier.value); }
  }

  /** A stored code and what is presented with it are in order. */
  predicate Exchangeable(db: Db, realm: Id, client: Id, c: Id, uri: string, verifier: Option<string>, now: Time)
    requires c in db.codes && db.codes[c].session in db.sessions && client in db.ids.clients
    requires SessionRefs(db.ids, db.sessions[db.codes[c].session])
  {
    var row := db.codes[c];
    && row.realm == realm && row.client == client && row.params.redirectUri == uri
    && row.consumedAt.None? && now < row.expiresAt && db.ids.clients[client].standardFlow
    && Serving(db.ids, db.sessions[row.session], now)
    && Proof(row.params, db.ids.clients[client].pkcePolicy, verifier)
  }

  lemma CodeRow(db: Db, c: Id, clock: Time)
    requires Inv(db, clock) && c in db.codes
    ensures CodeRefs(db.ids, db.sessions, db.codes[c]) && SessionRefs(db.ids, db.sessions[db.codes[c].session])
  {
    hide IdentityRefs, KeyTable, BucketTable, AuthTable, MailTable, EventTable, TokenTable, LinkTable,
         FamiliesOk, RowsOk, KeysOk, Drawn;
  }

  predicate HasKey(keys: map<Id, Key>, realm: Id) { exists k | k in keys :: keys[k].realm == realm }

  /** A realm with any key at all has exactly one active one. */
  lemma OneActiveKey(db: Db, realm: Id, clock: Time)
    requires Inv(db, clock)
    ensures HasKey(db.keys, realm) <==> |ActiveKeys(db.keys, realm)| == 1
    ensures !HasKey(db.keys, realm) <==> ActiveKeys(db.keys, realm) == {}
  {
    hide Integrity, FamiliesOk, RowsOk, Drawn;
    if k :| k in ActiveKeys(db.keys, realm) { assert k in db.keys && db.keys[k].realm == realm; }
  }

  /** The reply to a code exchange, case by case. */
  lemma ExchangeReplies(db: Db, cfg: Config, realm: Id, client: Id, c: Id, uri: string, verifier: Option<string>,
                        clock: Time, now: Time)
    requires Inv(db, clock)
    ensures c in db.codes ==>
      db.codes[c].session in db.sessions && SessionRefs(db.ids, db.sessions[db.codes[c].session])
    ensures var reply := ExchangeGrant(db, cfg, realm, client, c, uri, verifier, now).1;
            if !Open(db.ids, realm, client) then reply == Refused(InvalidClient)
            else if !(c in db.codes && Exchangeable(db, realm, client, c, uri, verifier, now))
            then reply == Refused(InvalidGrant)
            else if !HasKey(db.keys, realm) then reply == Refused(Unavailable)
            else reply.Tokens?
  {
    hide Inv, HasKey, Proof, ProofAccepted, Serving, Eligible, ActiveKeys, AddRow, NewRefresh, CommonClaims,
         AccessExpiry;
    OpenIsAuthenticated(db, realm, client);
    OneActiveKey(db, realm, clock);
    if c in db.codes {
      CodeRow(db, c, clock);
      EligibleIff(db, db.codes[c].session, realm, clock, now);
      if client in db.ids.clients { ProofIs(db.codes[c].params, db.ids.clients[client].pkcePolicy, verifier); }
      var spent := PutCode(db, c, db.codes[c].(consumedAt := Some(now)));
      SameSessions(db, spent, db.codes[c].session, realm, now);
    }
  }

  lemma SameSessions(a: Db, b: Db, sid: Id, realm: Id, now: Time)
    requires b.ids == a.ids && b.sessions == a.sessions
    ensures Eligible(b, sid, realm, now) <==> Eligible(a, sid, realm, now)
  {
    hide Live;
  }

  // ---------------------------------------------------------------- new sessions

  predicate OpenUser(ids: Identities, realm: Id, user: Id) {
    user in ids.users && ids.users[user].realm == realm && ids.users[user].enabled
  }

  lemma CreatedIsEligible(db: Db, cfg: Config, realm: Id, client: Id, user: Id, n: nat, now: Time)
    requires cfg.Positive() && MayCreateSession(db, realm, client, user)
    ensures Eligible(PutSession(Draw(db, n), db.supply, NewSession(db, cfg, realm, client, user, now)),
                     db.supply, realm, now)
  {
    AfterIsLater(now, db.ids.realms[realm].maxSeconds, cfg.maxSeconds);
    AfterIsLater(now, db.ids.realms[realm].idleSeconds, cfg.idleSeconds);
    hide After;
  }

  /** The reply to a password grant whose credentials were accepted. */
  lemma PasswordReplies(db: Db, cfg: Config, realm: Id, client: Id, user: Id, scope: Scope, clock: Time, now: Time)
    requires Inv(db, clock) && cfg.Positive()
    ensures var reply := PasswordGrant(db, cfg, realm, client, user, scope, now).1;
            if !(Open(db.ids, realm, client) && OpenUser(db.ids, realm, user)) then reply == Refused(InvalidClient)
            else if !HasKey(db.keys, realm) then reply == Refused(Unavailable)
            else reply.Tokens?
  {
    hide Inv, ActiveKeys, AddRow, NewRefresh, CommonClaims, AccessExpiry, NewSession, Distinct, Eligible, HasKey;
    OpenIsAuthenticated(db, realm, client);
    OneActiveKey(db, realm, clock);
    if MayCreateSession(db, realm, client, user) { CreatedIsEligible(db, cfg, realm, client, user, 1, now); }
  }

  /** What an authorization request needs: an open client with the standard flow, and a
      challenge where its policy or the request asks for one. */
  predicate Asks(ids: Identities, realm: Id, client: Id, params: AuthParams) {
    && Open(ids, realm, client) && ids.clients[client].standardFlow
    && match ids.clients[client].pkcePolicy
       case "S256" => params.challenge.Some? && params.challengeMethod == Some("S256")
       case "optional" =>
         || (params.challenge.None? && params.challengeMethod.None?)
         || (params.challenge.Some? && params.challengeMethod == Some("S256"))
       case _ => false
  }

  lemma AsksIs(db: Db, realm: Id, client: Id, params: AuthParams)
    ensures Asks(db.ids, realm, client, params) <==> RequestAllowed(db, realm, client, params)
  {}

  /** The reply to an authorization request: a code for a browser session that is
      served, a login page otherwise. */
  lemma AuthorizeReplies(db: Db, cfg: Config, realm: Id, client: Id, cookie: Option<Id>, params: AuthParams,
                         clock: Time, now: Time)
    requires Inv(db, clock) && cfg.Positive()
    ensures cookie.Some? && cookie.value in db.sessions ==> SessionRefs(db.ids, db.sessions[cookie.value])
    ensures var reply := Authorize(db, cfg, realm, client, cookie, params, now).1;
            if !Asks(db.ids, realm, client, params) then reply == Refused(BadRequest)
            else if cookie.Some? && cookie.value in db.sessions && db.sessions[cookie.value].realm == realm
                    && Serving(db.ids, db.sessions[cookie.value], now)
            then reply.CodeIssued? && reply.codeSession == cookie.value
            else reply.LoginPage?
  {
    hide Inv, Serving, Eligible, RequestAllowed, Asks, NewAuth, NewCode, Extended, Reused, WithCode;
    AsksIs(db, realm, client, params);
    if cookie.Some? {
      EligibleIff(db, cookie.value, realm, clock, now);
      if Eligible(db, cookie.value, realm, now) && RequestAllowed(db, realm, client, params) {
        ReusedStaysEligible(db, cfg, realm, client, cookie.value, params, now);
      }
    }
  }

  lemma ReusedStaysEligible(db: Db, cfg: Config, realm: Id, client: Id, sid: Id, params: AuthParams, now: Time)
    requires cfg.Positive() && Eligible(db, sid, realm, now)
    ensures sid in db.sessions && db.sessions[sid].realm in db.ids.realms && realm in db.ids.realms
    ensures Eligible(Reused(db, cfg, realm, client, sid, params, now), sid, realm, now)
  {
    AfterIsLater(now, db.ids.realms[realm].idleSeconds, cfg.idleSeconds);
    hide After;
  }

  /** The reply to a completed login: a code exactly for an open authentication session
      of an open client, for an open user, the selected one if there is one. */
  lemma LoginReplies(db: Db, cfg: Config, tab: Id, user: Id, now: Time)
    requires cfg.Positive()
    ensures var reply := CompleteLogin(db, cfg, tab, user, now).1;
            if && tab in db.authSessions
               && var auth := db.authSessions[tab];
               && !auth.authenticated && now < auth.expiresAt && auth.selectedUser in {None, Some(user)}
               && Asks(db.ids, auth.realm, auth.client, auth.params) && OpenUser(db.ids, auth.realm, user)
            then reply.CodeIssued?
            else reply == Refused(BadRequest)
  {
    hide Eligible, RequestAllowed, NewSession, WithCode;
    if tab in db.authSessions {
      var auth := db.authSessions[tab];
      AsksIs(db, auth.realm, auth.client, auth.params);
      OpenIsAuthenticated(db, auth.realm, auth.client);
      if MayComplete(db, tab, user, now) {
        CreatedIsEligible(db, cfg, auth.realm, auth.client, user, 2, now);
      }
    }
  }

  // ---------------------------------------------------------------- verification and logout

  /** The token is what it says: signed by a key of the realm, in the name of the realm,
      for this audience and of this type, and not from the future. */
  predicate Genuine(db: Db, raw: Jwt, realm: Id, audience: string, typ: TokenType, now: Time) {
    && realm in db.ids.realms && raw.kid in db.keys && raw.rs256 && db.keys[raw.kid].rs256
    && (db.keys[raw.kid].realm, db.keys[raw.kid].publicPart) == (realm, raw.signer)
    && raw.claims.iss == db.ids.realms[realm].issuer && raw.claims.typ == typ
    && raw.claims.aud == raw.claims.azp == audience && raw.claims.iat * SECOND <= now
  }

  /** The token speaks of a session of the realm, its user and its login time. */
  predicate Names(db: Db, raw: Jwt, realm: Id) {
    && raw.claims.sid in db.sessions
    && var s := db.sessions[raw.claims.sid];
       s.realm == realm && s.user == raw.claims.sub && s.authTime / SECOND == raw.claims.authTime
  }

  predicate HasOpenClient(ids: Identities, realm: Id, name: string) {
    exists c | c in ids.clients ::
      ids.clients[c].clientId == name && ids.clients[c].realm == realm && ids.clients[c].enabled
  }

  lemma NamedClientIs(db: Db, realm: Id, name: string)
    ensures HasOpenClient(db.ids, realm, name) <==> EnabledAudience(db, realm, name)
  {
    if HasOpenClient(db.ids, realm, name) {
      var c :| c in db.ids.clients && db.ids.clients[c].clientId == name && db.ids.clients[c].realm == realm
               && db.ids.clients[c].enabled;
      assert EnabledClient(db, realm, c);
    }
    if EnabledAudience(db, realm, name) {
      var c :| c in db.ids.clients && EnabledClient(db, realm, c) && db.ids.clients[c].clientId == name;
      assert c in db.ids.clients;
    }
  }

  lemma GenuineDecodes(db: Db, raw: Jwt, realm: Id, audience: string, typ: TokenType, checkExpiry: bool, now: Time)
    ensures Decodes(db, raw, realm, audience, typ, checkExpiry, now) <==>
      Genuine(db, raw, realm, audience, typ, now) && (checkExpiry ==> now / SECOND < raw.claims.exp)
  {
    FloorBefore(now, raw.claims.exp);
  }

  /** A verification succeeds exactly for a genuine, unexpired token of a session that is
      served, for an audience that is open. */
  lemma VerificationReplies(db: Db, cfg: Config, realm: Id, raw: Jwt, audience: string, typ: TokenType,
                            clock: Time, now: Time)
    requires Inv(db, clock) && typ != Refresh
    ensures Names(db, raw, realm) ==> SessionRefs(db.ids, db.sessions[raw.claims.sid])
    ensures Apply(db, cfg, RequestVerify(realm, raw, audience, typ), now)
            == (db, if && Genuine(db, raw, realm, audience, typ, now) && now / SECOND < raw.claims.exp
                       && HasOpenClient(db.ids, realm, audience) && Names(db, raw, realm)
                       && Serving(db.ids, db.sessions[raw.claims.sid], now)
                    then Verified(raw.claims) else Refused(InvalidToken))
  {
    hide Inv, Serving, Eligible, Decodes, Genuine, EnabledAudience, HasOpenClient;
    GenuineDecodes(db, raw, realm, audience, typ, true, now);
    NamedClientIs(db, realm, audience);
    EligibleIff(db, raw.claims.sid, realm, clock, now);
  }

  /** Presented for verification or logout, a stored refresh token passes exactly if it
      could be redeemed by its client. */
  lemma StoredTokenVerifies(db: Db, t: Id, clock: Time, now: Time)
    requires Inv(db, clock) && clock <= now && t in db.tokens
    ensures TokenRefs(db.ids, db.sessions, db.tokens[t])
    ensures SessionRefs(db.ids, db.sessions[db.tokens[t].session])
    ensures var row := db.tokens[t];
            Verifies(db, row.hash, row.realm, db.ids.clients[row.client].clientId, Refresh, now) <==>
              && db.ids.clients[row.client].enabled && Serving(db.ids, db.sessions[row.session], now)
              && row.usedAt.None? && row.revokedAt.None? && now / SECOND < row.expiresAt / SECOND
  {
    StoredFacts(db, t, clock);
    var row := db.tokens[t];
    SessionRow(db, row.session, clock);
    EligibleIff(db, row.session, row.realm, clock, now);
    StoredExpiry(db, t);
    StoredNames(db, t);
    if Floor(now) < Floor(row.expiresAt) { StoredTokenDecodes(db, t, true, clock, now); }
    Seconds(now);
    Seconds(row.expiresAt);
    hide Inv, Serving, Eligible, Floor, ActiveKeys, RecordOf;
    FloorBefore(now, row.hash.claims.exp);
    if row.client in db.ids.clients && db.ids.clients[row.client].enabled {
      assert EnabledClient(db, row.realm, row.client);
    }
  }

  lemma StoredNames(db: Db, t: Id)
    requires t in db.tokens && RecordOf(db.ids, db.keys, db.sessions, t, db.tokens[t])
    requires TokenRefs(db.ids, db.sessions, db.tokens[t])
    ensures var row, claims := db.tokens[t], db.tokens[t].hash.claims;
            && claims.sub == row.user == db.sessions[row.session].user
            && claims.authTime == Floor(db.sessions[row.session].authTime)
  {}

  /** The reply to a logout with a stored refresh token. */
  lemma RefreshLogoutReplies(db: Db, t: Id, clock: Time, now: Time)
    requires Inv(db, clock) && clock <= now && t in db.tokens
    ensures TokenRefs(db.ids, db.sessions, db.tokens[t])
    ensures SessionRefs(db.ids, db.sessions[db.tokens[t].session])
    ensures var row := db.tokens[t];
            LogoutByRefresh(db, row.realm, row.client, row.hash, now).1 ==
              if !(db.ids.realms[row.realm].enabled && db.ids.clients[row.client].enabled)
              then Refused(InvalidClient)
              else if && Serving(db.ids, db.sessions[row.session], now)
                      && row.usedAt.None? && row.revokedAt.None? && now / SECOND < row.expiresAt / SECOND
              then Done
              else Refused(InvalidGrant)
  {
    hide Inv, Serving, Verifies, Revoke;
    StoredTokenVerifies(db, t, clock, now);
    OpenIsAuthenticated(db, db.tokens[t].realm, db.tokens[t].client);
  }

  /** A token that is not stored for that very client logs nobody out. */
  lemma ForeignLogoutRefused(db: Db, realm: Id, client: Id, raw: Jwt, now: Time)
    requires raw.claims.jti !in db.tokens || db.tokens[raw.claims.jti].hash != raw
             || db.tokens[raw.claims.jti].realm != realm
             || (client in db.ids.clients && db.tokens[raw.claims.jti].client in db.ids.clients
                 && db.ids.clients[db.tokens[raw.claims.jti].client].clientId != db.ids.clients[client].clientId)
    ensures LogoutByRefresh(db, realm, client, raw, now)
            == (db, Refused(if Open(db.ids, realm, client) then InvalidGrant else InvalidClient))
  {
    hide Decodes, Eligible, EnabledAudience, RefreshMatches, Revoke;
  }

  /** The rows of a session that may still be logged out: revoked or not. */
  predicate Retained(ids: Identities, s: UserSession, now: Time)
    requires SessionRefs(ids, s)
  {
    && ids.realms[s.realm].enabled && ids.users[s.user].enabled && ids.clients[s.client].enabled
    && now < s.idleExpires && now < s.maxExpires
  }

  /** The reply to a logout with an ID token as hint: its own expiry does not count, a
      revocation does not either, so that a logout can be retried. */
  lemma HintLogoutReplies(db: Db, realm: Id, raw: Jwt, audience: Option<string>, clock: Time, now: Time)
    requires Inv(db, clock)
    ensures Names(db, raw, realm) ==> SessionRefs(db.ids, db.sessions[raw.claims.sid])
    ensures LogoutByHint(db, realm, raw, audience, now).1 ==
              if !(realm in db.ids.realms && db.ids.realms[realm].enabled) then Refused(NotFound)
              else
                var name := if audience.Some? then audience.value else raw.claims.aud;
                if && Genuine(db, raw, realm, name, ID, now) && HasOpenClient(db.ids, realm, name)
                   && Names(db, raw, realm) && Retained(db.ids, db.sessions[raw.claims.sid], now)
                then Done
                else Refused(InvalidToken)
  {
    var name := if audience.Some? then audience.value else raw.claims.aud;
    GenuineDecodes(db, raw, realm, name, ID, false, now);
    NamedClientIs(db, realm, name);
    hide Inv, Decodes, Genuine, EnabledAudience, HasOpenClient, Revoke, ClientNamed;
    if raw.claims.sid in db.sessions { SessionRow(db, raw.claims.sid, clock); }
  }
}

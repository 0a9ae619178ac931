/** What the server hands out it takes back: every token of a response verifies as
    what it is, and as nothing else, for exactly as long as its session allows; a
    code can be exchanged by exactly its client, URI and verifier; and a freshly
    provisioned server answers. */
module RoundTrips {
  import opened Prelude
  import opened Tables
  import opened Protocol
  import opened Invariants
  import opened Server
  import opened Steps
  import opened Completeness

  // ---------------------------------------------------------------- tokens

  predicate SignedFor(db: Db, raw: Jwt, realm: Id, client: Id, sid: Id, typ: TokenType, now: Time) {
    && MayIssue(db, realm, client, sid, now)
    && raw.rs256 && raw.kid in db.keys && IsActiveKey(db.keys[raw.kid], realm)
    && raw.signer == db.keys[raw.kid].publicPart
    && raw.claims.iss == db.ids.realms[realm].issuer && raw.claims.iat == Floor(now)
    && raw.claims.aud == raw.claims.azp == db.ids.clients[client].clientId
    && raw.claims.typ == typ && raw.claims.sid == sid && raw.claims.sub == db.sessions[sid].user
    && raw.claims.authTime == Floor(db.sessions[sid].authTime)
  }

  /** Each token of a response carries the identity, the session and the scope it was
      asked for, and the nonce only in the ID token. */
  lemma ResponseIsSigned(db: Db, cfg: Config, realm: Id, client: Id, sid: Id, scope: Scope,
                         nonce: Option<string>, parent: Option<Id>, now: Time)
    requires parent.Some? ==> parent.value in db.tokens
    requires IssueTokens(db, cfg, realm, client, sid, scope, nonce, parent, now).Issued?
    ensures var r := IssueTokens(db, cfg, realm, client, sid, scope, nonce, parent, now).response;
            && SignedFor(db, r.access, realm, client, sid, Bearer, now)
            && SignedFor(db, r.refresh, realm, client, sid, Refresh, now)
            && (r.idToken.Some? <==> "openid" in scope)
            && (r.idToken.Some? ==> SignedFor(db, r.idToken.value, realm, client, sid, ID, now)
                                    && r.idToken.value.claims.nonce == nonce)
            && r.session == sid && r.scope == scope && r.access.claims.scope == scope && r.refresh.claims.scope == scope
            && r.access.claims.jti != r.refresh.claims.jti
            && r.access.claims.nonce.None? && r.refresh.claims.nonce.None?
  {
    hide AccessExpiry, RefreshExpiry, AddRow, Eligible;
    ActiveKeyIsActive(db.keys, realm);
  }

  lemma ActiveKeyIsActive(keys: map<Id, Key>, realm: Id)
    requires |ActiveKeys(keys, realm)| == 1
    ensures Only(ActiveKeys(keys, realm)) in keys && IsActiveKey(keys[Only(ActiveKeys(keys, realm))], realm)
  {
    assert Only(ActiveKeys(keys, realm)) in ActiveKeys(keys, realm);
  }

  lemma SignedDecodes(db: Db, raw: Jwt, realm: Id, client: Id, sid: Id, own: TokenType,
                      audience: string, typ: TokenType, checkExpiry: bool, now: Time, later: Time)
    requires SignedFor(db, raw, realm, client, sid, own, now) && now <= later
    ensures Decodes(db, raw, realm, audience, typ, checkExpiry, later) <==>
      typ == own && audience == db.ids.clients[client].clientId
      && (checkExpiry ==> later < raw.claims.exp * SECOND)
  {
    hide Eligible;
    assert Floor(now) * SECOND <= now;
  }

  lemma AudienceEnabled(db: Db, realm: Id, client: Id)
    requires EnabledClient(db, realm, client)
    ensures EnabledAudience(db, realm, db.ids.clients[client].clientId)
  {}

  /** In the state that a response leaves, its access and ID tokens verify as exactly
      their own type and audience until they expire or their session does; as a
      logout hint the ID token outlives its own expiry but not that of the session. */
  lemma IssuedTokensVerify(db: Db, cfg: Config, realm: Id, client: Id, sid: Id, scope: Scope,
                           nonce: Option<string>, parent: Option<Id>, now: Time,
                           audience: string, typ: TokenType, later: Time)
    requires parent.Some? ==> parent.value in db.tokens
    requires IssueTokens(db, cfg, realm, client, sid, scope, nonce, parent, now).Issued? && now <= later
    ensures
      var r := IssueTokens(db, cfg, realm, client, sid, scope, nonce, parent, now);
      var own := audience == db.ids.clients[client].clientId;
      && (Verifies(r.db, r.response.access, realm, audience, typ, later) <==>
            typ == Bearer && own && Floor(later) < r.response.access.claims.exp && Live(db.sessions[sid], later))
      && (r.response.idToken.Some? ==>
            && (Verifies(r.db, r.response.idToken.value, realm, audience, typ, later) <==>
                  && typ == ID && own && Floor(later) < r.response.idToken.value.claims.exp
                  && Live(db.sessions[sid], later))
            && (HintVerifies(r.db, r.response.idToken.value, realm, audience, later) <==>
                  own && !Expired(db.sessions[sid], later)))
  {
    hide IssueTokens, SignedFor, Decodes, Expired;
    var r := IssueTokens(db, cfg, realm, client, sid, scope, nonce, parent, now);
    ResponseIsSigned(db, cfg, realm, client, sid, scope, nonce, parent, now);
    IssueFrame(db, cfg, realm, client, sid, scope, nonce, parent, now);
    SignedVerifies(db, r.db, r.response.access, realm, client, sid, Bearer, audience, typ, now, later);
    if r.response.idToken.Some? {
      SignedVerifies(db, r.db, r.response.idToken.value, realm, client, sid, ID, audience, typ, now, later);
      SignedHints(db, r.db, r.response.idToken.value, realm, client, sid, audience, now, later);
    }
  }

  lemma IssueFrame(db: Db, cfg: Config, realm: Id, client: Id, sid: Id, scope: Scope,
                   nonce: Option<string>, parent: Option<Id>, now: Time)
    requires parent.Some? ==> parent.value in db.tokens
    requires IssueTokens(db, cfg, realm, client, sid, scope, nonce, parent, now).Issued?
    ensures var r := IssueTokens(db, cfg, realm, client, sid, scope, nonce, parent, now);
            OnlyRows(db, r.db) && r.db.sessions == db.sessions && MayIssue(db, realm, client, sid, now)
  {
    hide AccessExpiry, RefreshExpiry, MayIssue, NewRefresh, CommonClaims;
  }

  lemma SignedVerifies(db: Db, after: Db, raw: Jwt, realm: Id, client: Id, sid: Id, own: TokenType,
                       audience: string, typ: TokenType, now: Time, later: Time)
    requires SignedFor(db, raw, realm, client, sid, own, now) && now <= later && own != Refresh
    requires OnlyRows(db, after) && after.sessions == db.sessions
    ensures Verifies(after, raw, realm, audience, typ, later) <==>
      typ == own && audience == db.ids.clients[client].clientId
      && Floor(later) < raw.claims.exp && Live(db.sessions[sid], later)
  {
    hide Decodes, Live, EnabledAudience, UnusedRowMatches, Floor;
    assert SignedFor(after, raw, realm, client, sid, own, now);
    SignedDecodes(after, raw, realm, client, sid, own, audience, typ, true, now, later);
    FloorBefore(later, raw.claims.exp);
    AudienceEnabled(after, realm, client);
  }

  lemma SignedHints(db: Db, after: Db, raw: Jwt, realm: Id, client: Id, sid: Id,
                    audience: string, now: Time, later: Time)
    requires SignedFor(db, raw, realm, client, sid, ID, now) && now <= later
    requires OnlyRows(db, after) && after.sessions == db.sessions
    ensures HintVerifies(after, raw, realm, audience, later) <==>
      audience == db.ids.clients[client].clientId && !Expired(db.sessions[sid], later)
  {
    hide Decodes, Expired, EnabledAudience, Floor;
    assert SignedFor(after, raw, realm, client, sid, ID, now);
    SignedDecodes(after, raw, realm, client, sid, ID, audience, ID, false, now, later);
    AudienceEnabled(after, realm, client);
  }

  // ---------------------------------------------------------------- codes

  /** A code that a login has just added is accepted from exactly its client, with its
      redirect URI and a proof for its challenge, until it or its session expires. */
  lemma IssuedCodesWork(db: Db, cfg: Config, client: Id, sid: Id, params: AuthParams, c: Id, now: Time,
                        realm': Id, client': Id, uri: string, verifier: Option<string>, later: Time)
    requires sid in db.sessions && db.sessions[sid].realm in db.ids.realms
    requires RequestAllowed(db, db.sessions[sid].realm, client, params)
    ensures
      var s, after := db.sessions[sid], WithCode(db, cfg, client, sid, params, c, now);
      CodeAccepted(after, realm', client', c, uri, verifier, later) <==>
        && realm' == s.realm && client' == client && uri == params.redirectUri
        && later < Protocol.NewCode(db, cfg, client, sid, params, now).expiresAt && Eligible(db, sid, s.realm, later)
        && ProofAccepted(params, db.ids.clients[client].pkcePolicy, verifier)
  {
    hide Live, ProofAccepted;
  }

  /** With a challenge, only the verifier that it was made from proves possession, and
      without one no verifier may be sent. */
  lemma ProofIsTheVerifier(db: Db, realm: Id, client: Id, params: AuthParams, secret: string, verifier: Option<string>)
    requires RequestAllowed(db, realm, client, params)
    requires params.challenge.Some? ==> params.challenge.value == S256Of(secret)
    ensures ProofAccepted(params, db.ids.clients[client].pkcePolicy, verifier) <==>
      if params.challenge.Some? then verifier == Some(secret) && VerifierShape(secret)
      else verifier.None?
  {
    hide VerifierShape, Authenticated;
  }

  /** The code of a completed login belongs to the user who logged in, with the stored
      parameters of the authorization request; that of a reused browser session to the
      user of that session. */
  lemma LoginCodeIsTheUsers(db: Db, cfg: Config, tab: Id, user: Id, now: Time)
    requires CompleteLogin(db, cfg, tab, user, now).1.CodeIssued?
    ensures tab in db.authSessions
    ensures var (after, reply) := CompleteLogin(db, cfg, tab, user, now); var auth := db.authSessions[tab];
            && reply.code in after.codes && reply.codeSession in after.sessions
            && after.codes[reply.code].session == reply.codeSession && after.codes[reply.code].params == auth.params
            && after.codes[reply.code].client == after.sessions[reply.codeSession].client == auth.client
            && after.codes[reply.code].user == after.sessions[reply.codeSession].user == user
            && after.sessions[reply.codeSession].authTime == now
  {
    hide RequestAllowed, MayCreateSession, Live, IdentitiesEnabled;
  }

  lemma ReusedCodeIsTheSessions(db: Db, cfg: Config, realm: Id, client: Id, cookie: Option<Id>, params: AuthParams,
                                now: Time)
    requires Authorize(db, cfg, realm, client, cookie, params, now).1.CodeIssued?
    ensures cookie.Some? && cookie.value in db.sessions
    ensures var (after, reply) := Authorize(db, cfg, realm, client, cookie, params, now);
            var was := db.sessions[cookie.value];
            && reply.code in after.codes && reply.codeSession == cookie.value && cookie.value in after.sessions
            && after.codes[reply.code].session == cookie.value && after.codes[reply.code].params == params
            && after.codes[reply.code].client == client && after.codes[reply.code].user == was.user
            && after.sessions[cookie.value]
               == was.(lastRefresh := now, idleExpires := after.sessions[cookie.value].idleExpires)
  {
    hide RequestAllowed, Live, IdentitiesEnabled;
    EligibleIsThere(db, cookie.value, realm, now);
  }

  lemma EligibleIsThere(db: Db, sid: Id, realm: Id, now: Time)
    ensures Eligible(db, sid, realm, now) ==> sid in db.sessions && db.sessions[sid].realm == realm
  {}

  /** From the login to the tokens: the code can be exchanged at once exactly with the
      redirect URI and the proof of its request, given that the realm has a key. */
  lemma LoginThenExchange(db: Db, cfg: Config, tab: Id, user: Id, uri: string, verifier: Option<string>, now: Time)
    requires cfg.Positive() && CompleteLogin(db, cfg, tab, user, now).1.CodeIssued? && tab in db.authSessions
    ensures var (after, reply) := CompleteLogin(db, cfg, tab, user, now); var auth := db.authSessions[tab];
            ExchangeGrant(after, cfg, auth.realm, auth.client, reply.code, uri, verifier, now).1.Tokens? <==>
              && uri == auth.params.redirectUri && auth.client in db.ids.clients
              && ProofAccepted(auth.params, db.ids.clients[auth.client].pkcePolicy, verifier)
              && |ActiveKeys(db.keys, auth.realm)| == 1
  {
    hide Live, ProofAccepted, ActiveKeys, AccessExpiry, NewRefresh, CommonClaims, AddRow;
    var (after, reply) := CompleteLogin(db, cfg, tab, user, now);
    var auth := db.authSessions[tab];
    assert now < After(now, db.ids.realms[auth.realm].codeSeconds, cfg.codeSeconds);
  }

  /** A successful exchange yields tokens for exactly the session, the scope and the
      nonce that the code was issued with. */
  lemma ExchangeCarriesCode(db: Db, cfg: Config, realm: Id, client: Id, raw: Id, uri: string,
                            verifier: Option<string>, now: Time)
    requires ExchangeGrant(db, cfg, realm, client, raw, uri, verifier, now).1.Tokens?
    ensures raw in db.codes && var code, r := db.codes[raw],
                                   ExchangeGrant(db, cfg, realm, client, raw, uri, verifier, now).1.response;
            && r.session == code.session && r.scope == code.params.scope
            && r.access.claims.sub == code.user && r.access.claims.aud == db.ids.clients[client].clientId
            && (r.idToken.Some? <==> "openid" in code.params.scope)
            && (r.idToken.Some? ==> r.idToken.value.claims.nonce == code.params.nonce)
  {
    hide IssueTokens, ProofAccepted, Eligible, SignedFor;
    var code := db.codes[raw];
    var spent := PutCode(db, raw, code.(consumedAt := Some(now)));
    ResponseIsSigned(spent, cfg, realm, client, code.session, code.params.scope, code.params.nonce, None, now);
    SignedIdentity(spent, IssueTokens(spent, cfg, realm, client, code.session, code.params.scope, code.params.nonce,
                                      None, now).response.access, realm, client, code.session, Bearer, now);
  }

  lemma SignedIdentity(db: Db, raw: Jwt, realm: Id, client: Id, sid: Id, typ: TokenType, now: Time)
    requires SignedFor(db, raw, realm, client, sid, typ, now)
    ensures client in db.ids.clients && sid in db.sessions
    ensures raw.claims.sub == db.sessions[sid].user && raw.claims.aud == db.ids.clients[client].clientId
  {
    hide Live;
  }

  /** A successful refresh yields tokens of the same session with the requested words
      of the old scope, each once, or with all of it. */
  lemma RefreshCarriesScope(db: Db, cfg: Config, realm: Id, client: Id, raw: Jwt, narrowed: Option<Scope>, now: Time)
    requires RefreshGrant(db, cfg, realm, client, raw, narrowed, now).1.Tokens?
    ensures raw.claims.jti in db.tokens
    ensures var row := db.tokens[raw.claims.jti];
            var r := RefreshGrant(db, cfg, realm, client, raw, narrowed, now).1.response;
            && r.session == row.session == raw.claims.sid
            && (forall w :: w in r.scope <==> w in (if narrowed.Some? then narrowed.value else row.scope))
            && (forall w | w in r.scope :: w in row.scope)
            && (forall i, j | 0 <= i < j < |r.scope| :: r.scope[i] != r.scope[j])
  {
    hide Decodes, RefreshMatches, Eligible, IssueTokens, ConsumeAndExtend, SignedFor, Distinct;
    var t := raw.claims.jti;
    var requested := if narrowed.Some? then narrowed.value else db.tokens[t].scope;
    NoRepetition(requested);
    Extendable(db, cfg, realm, client, raw, narrowed, now);
    ResponseIsSigned(ConsumeAndExtend(db, cfg, t, now), cfg, realm, client, raw.claims.sid, Distinct(requested), None,
                     Some(t), now);
  }

  lemma Extendable(db: Db, cfg: Config, realm: Id, client: Id, raw: Jwt, narrowed: Option<Scope>, now: Time)
    requires RefreshGrant(db, cfg, realm, client, raw, narrowed, now).1.Tokens?
    ensures var t := raw.claims.jti;
            && t in db.tokens && db.tokens[t].session in db.sessions
            && db.sessions[db.tokens[t].session].realm in db.ids.realms
            && t in ConsumeAndExtend(db, cfg, t, now).tokens
  {
    hide Decodes, RefreshMatches, Live, IssueTokens, Distinct;
  }

  lemma {:induction false} NoRepetition(words: Scope)
    ensures forall i, j | 0 <= i < j < |Distinct(words)| :: Distinct(words)[i] != Distinct(words)[j]
  {
    if words != [] { NoRepetition(words[..|words| - 1]); }
  }

  // ---------------------------------------------------------------- a server from nothing

  /** Create a realm, provision its key, add a client and a user. */
  function Provisioning(realm: Realm, client: Client, user: User, now: Time): seq<Step> {
    [Step(RequestAdminister(CreateRealm(realm)), now), Step(RequestEnsureKey(0), now),
     Step(RequestAdminister(CreateClient(client)), now), Step(RequestAdminister(CreateUser(user)), now)]
  }

  /** The database after provisioning. */
  function Provisioned(realm: Realm, client: Client, user: User): Db {
    EMPTY.(ids := EMPTY.ids.(realms := map[0 := realm.(resetFlow := None)], clients := map[3 := client],
                             users := map[4 := user]),
           keys := map[1 := Key(0, true, 2, true, None)], supply := 5)
  }

  lemma ProvisioningRun(cfg: Config, realm: Realm, client: Client, user: User, now: Time)
    requires client.realm == 0 && user.realm == 0
    ensures Run(EMPTY, cfg, Provisioning(realm, client, user, now)) == Provisioned(realm, client, user)
  {
    hide Apply, Run;
    var steps := Provisioning(realm, client, user, now);
    var r := EMPTY.(ids := EMPTY.ids.(realms := map[0 := realm.(resetFlow := None)]), supply := 1);
    var k := r.(keys := map[1 := Key(0, true, 2, true, None)], supply := 3);
    var c := k.(ids := k.ids.(clients := map[3 := client]), supply := 4);
    ApplyChange(EMPTY, cfg, CreateRealm(realm), now);
    KeyProvisioned(r, cfg, now);
    ApplyChange(k, cfg, CreateClient(client), now);
    ApplyChange(c, cfg, CreateUser(user), now);
    RunCons(EMPTY, cfg, steps);
    RunCons(r, cfg, steps[1..]);
    RunCons(k, cfg, steps[2..]);
    RunCons(c, cfg, steps[3..]);
    assert steps[1..][1..] == steps[2..] && steps[2..][1..] == steps[3..] && steps[3..][1..] == [];
    RunNil(Provisioned(realm, client, user), cfg);
  }

  lemma KeyProvisioned(db: Db, cfg: Config, now: Time)
    requires db.keys == map[] && 0 in db.ids.realms && db.supply == 1
    ensures Apply(db, cfg, RequestEnsureKey(0), now).0
            == db.(keys := map[1 := Key(0, true, 2, true, None)], supply := 3)
  {
    assert ActiveKeys(db.keys, 0) == {};
  }

  /** From an empty database, provisioning alone makes a server whose first password
      grant succeeds, and its refresh token can be redeemed: for every configuration
      and every enabled realm, client and user. */
  lemma FirstLoginWorks(cfg: Config, realm: Realm, client: Client, user: User, scope: Scope, now: Time)
    requires cfg.Positive() && realm.enabled && client.enabled && user.enabled
    requires client.realm == 0 && user.realm == 0
    ensures var db := Run(EMPTY, cfg, Provisioning(realm, client, user, now));
            && PasswordGrant(db, cfg, 0, 3, 4, scope, now).1.Tokens?
            && var login := PasswordGrant(db, cfg, 0, 3, 4, scope, now);
               RefreshGrant(login.0, cfg, 0, 3, login.1.response.refresh, None, now).1.Tokens?
  {
    hide Run, PasswordGrant, RefreshGrant, Provisioned, Provisioning, Inv, Redeemable;
    var db := Provisioned(realm, client, user);
    ProvisioningRun(cfg, realm, client, user, now);
    FirstGrant(cfg, realm, client, user, scope, now);
    FirstGrantStored(cfg, realm, client, user, scope, now);
    ProvisionedSound(cfg, realm, client, user, now);
    PasswordKeepsInv(db, cfg, 0, 3, 4, scope, now);
    var login := PasswordGrant(db, cfg, 0, 3, 4, scope, now);
    RefreshAcceptedIff(login.0, cfg, login.1.response.refresh.claims.jti, None, now, now);
  }

  lemma ProvisionedSound(cfg: Config, realm: Realm, client: Client, user: User, now: Time)
    requires client.realm == 0 && user.realm == 0
    ensures Inv(Provisioned(realm, client, user), now)
  {
    hide Inv, Apply, Run, Provisioned;
    var steps := Provisioning(realm, client, user, now);
    assert Ordered(steps, now) && Clock(steps, now) == now by {
      assert steps[1..][1..] == steps[2..] && steps[2..][1..] == steps[3..] && steps[3..][1..] == [];
      assert Ordered(steps[3..], now) && Clock(steps[3..], now) == now;
      assert Ordered(steps[2..], now) && Clock(steps[2..], now) == now;
    }
    EmptyIsSound(now);
    RunKeepsInv(EMPTY, cfg, steps, now);
    ProvisioningRun(cfg, realm, client, user, now);
  }

  lemma FirstGrant(cfg: Config, realm: Realm, client: Client, user: User, scope: Scope, now: Time)
    requires cfg.Positive() && realm.enabled && client.enabled && user.enabled
    requires client.realm == 0 && user.realm == 0
    ensures PasswordGrant(Provisioned(realm, client, user), cfg, 0, 3, 4, scope, now).1.Tokens?
  {
    hide NewRefresh, CommonClaims, AccessExpiry, AddRow, Distinct;
    var db := Provisioned(realm, client, user);
    assert ActiveKeys(db.keys, 0) == {1};
  }

  /** The grant stores the refresh token of its response, redeemable at once. */
  lemma FirstGrantStored(cfg: Config, realm: Realm, client: Client, user: User, scope: Scope, now: Time)
    requires cfg.Positive() && realm.enabled && client.enabled && user.enabled
    requires client.realm == 0 && user.realm == 0
    requires PasswordGrant(Provisioned(realm, client, user), cfg, 0, 3, 4, scope, now).1.Tokens?
    ensures var login := PasswordGrant(Provisioned(realm, client, user), cfg, 0, 3, 4, scope, now);
            var t := login.1.response.refresh.claims.jti;
            && t in login.0.tokens && login.0.tokens[t].hash == login.1.response.refresh
            && login.0.tokens[t].realm == 0 && login.0.tokens[t].client == 3
            && Redeemable(login.0, t, None, now)
  {
    hide Distinct, IssueTokens, Provisioned, Live, Floor, RefreshExpiry;
    var db := Provisioned(realm, client, user);
    var session := NewSession(db, cfg, 0, 3, 4, now);
    var created := PutSession(Draw(db, 1), db.supply, session);
    ProvisionedEmpty(realm, client, user);
    IssuedIsStored(created, cfg, 0, 3, db.supply, Distinct(scope), None, None, now);
    IssueFrame(created, cfg, 0, 3, db.supply, Distinct(scope), None, None, now);
    NewSessionLasts(db, cfg, 0, 3, 4, now);
    assert RefreshExpiry(created, cfg, session, 0, now) == RefreshExpiry(db, cfg, session, 0, now) by {
      ExpiryOfIdentities(db, created, cfg, session, 0, now);
    }
  }

  lemma ProvisionedEmpty(realm: Realm, client: Client, user: User)
    ensures var db := Provisioned(realm, client, user);
            db.tokens == map[] && db.supply == 5 && 0 in db.ids.realms
  {}

  lemma ExpiryOfIdentities(a: Db, b: Db, cfg: Config, s: UserSession, realm: Id, now: Time)
    requires a.ids == b.ids && realm in a.ids.realms
    ensures RefreshExpiry(b, cfg, s, realm, now) == RefreshExpiry(a, cfg, s, realm, now)
  {}

  /** Positive lifetimes leave a new session and its first token at least a second. */
  lemma NewSessionLasts(db: Db, cfg: Config, realm: Id, client: Id, user: Id, now: Time)
    requires cfg.Positive() && realm in db.ids.realms
    ensures var s := NewSession(db, cfg, realm, client, user, now);
            Live(s, now) && Floor(now) < Floor(RefreshExpiry(db, cfg, s, realm, now))
  {
    hide Floor;
    var s := NewSession(db, cfg, realm, client, user, now);
    ASecondLater(now, RefreshExpiry(db, cfg, s, realm, now));
  }

  lemma ASecondLater(a: Time, b: Time)
    requires a + SECOND <= b
    ensures Floor(a) < Floor(b)
  {}
}

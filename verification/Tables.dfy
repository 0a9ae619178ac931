/** The rows of the database and the constraints that the schema declares.

    A table is a map from its primary key. The unique columns `sid`,
    `token_hash`, `code_hash`, `jti` and `kid` are random and one to one with
    their rows, so they serve as the keys here; a stored hash keeps the value
    it was computed from, because hashing is taken to be injective. */
module Tables {
  import opened Prelude

  /** A space separated scope string, already split into words. */
  type Scope = seq<string>

  datatype Realm = Realm(
    enabled: bool, issuer: string, resetFlow: Option<Id>,
    accessSeconds: Option<nat>, codeSeconds: Option<nat>, refreshSeconds: Option<nat>,
    idleSeconds: Option<nat>, maxSeconds: Option<nat>)

  datatype Client = Client(
    realm: Id, clientId: string, enabled: bool, standardFlow: bool, pkcePolicy: string)

  datatype User = User(realm: Id, enabled: bool)

  datatype Credential = Credential(user: Id)

  datatype Key = Key(
    realm: Id, rs256: bool, publicPart: Id, active: bool, deactivatedAt: Option<Time>)

  datatype Flow = Flow(realm: Id, alias: string)

  datatype Execution = Execution(flow: Id, authenticator: string, priority: int)

  /** Either the digest of a PKCE verifier or some other text. */
  datatype Challenge = S256Of(verifier: string) | Text(text: string)

  /** The stored parameters of an authorization request. */
  datatype AuthParams = AuthParams(
    redirectUri: string, scope: Scope, nonce: Option<string>,
    challenge: Option<Challenge>, challengeMethod: Option<string>)

  datatype AuthSession = AuthSession(
    realm: Id, client: Id, flow: Option<Id>, selectedUser: Option<Id>,
    params: AuthParams, authenticated: bool, expiresAt: Time)

  datatype ResetEmail = ResetEmail(
    realm: Id, user: Id, client: Option<Id>, authSession: Option<Id>,
    consumed: bool, expiresAt: Time)

  datatype UserSession = UserSession(
    realm: Id, client: Id, user: Id, authTime: Time, lastRefresh: Time,
    idleExpires: Time, maxExpires: Time, revokedAt: Option<Time>)

  datatype Code = Code(
    realm: Id, client: Id, user: Id, session: Id, params: AuthParams,
    expiresAt: Time, consumedAt: Option<Time>)

  datatype TokenType = Bearer | ID | Refresh

  datatype Claims = Claims(
    iss: string, sub: Id, aud: string, azp: string, iat: nat, exp: nat, authTime: nat,
    jti: Id, typ: TokenType, sid: Id, scope: Scope,
    generation: Option<nat>, nonce: Option<string>)

  /** A JWT: the header's `kid` and algorithm, the key that really signed it,
      and its claims. */
  datatype Jwt = Jwt(kid: Id, rs256: bool, signer: Id, claims: Claims)

  datatype RefreshToken = RefreshToken(
    hash: Jwt, realm: Id, client: Id, user: Id, session: Id, family: Id, generation: nat,
    scope: Scope, createdAt: Time, expiresAt: Time,
    usedAt: Option<Time>, revokedAt: Option<Time>, replacedBy: Option<Id>)

  datatype Event = Event(realm: Id, client: Option<Id>, user: Option<Id>, session: Option<Id>)

  datatype BucketKey = BucketKey(realm: Id, hash: Id)

  datatype Bucket = Bucket(
    count: nat, firstFailure: Time, lastFailure: Time, blockedUntil: Option<Time>, expiresAt: Time)

  /** The tables that protocol requests only read. */
  datatype Identities = Identities(
    realms: map<Id, Realm>, clients: map<Id, Client>, users: map<Id, User>,
    credentials: map<Id, Credential>, flows: map<Id, Flow>, executions: map<Id, Execution>)

  datatype Db = Db(
    ids: Identities, keys: map<Id, Key>,
    authSessions: map<Id, AuthSession>, resetEmails: map<Id, ResetEmail>,
    sessions: map<Id, UserSession>, codes: map<Id, Code>, tokens: map<Id, RefreshToken>,
    events: map<Id, Event>, buckets: map<BucketKey, Bucket>,
    supply: Id)

  /** The configured defaults and throttle settings, constant within a run. */
  datatype Config = Config(
    accessSeconds: nat, refreshSeconds: nat, codeSeconds: nat, idleSeconds: nat, maxSeconds: nat,
    threshold: nat, windowSeconds: nat, lockSeconds: nat)
  {
    predicate Positive() {
      && 0 < accessSeconds && 0 < refreshSeconds && 0 < codeSeconds && 0 < idleSeconds
      && 0 < maxSeconds && 0 < threshold && 0 < windowSeconds && 0 < lockSeconds
    }
  }

  // ---------------------------------------------------------------- foreign keys
  //
  // One predicate a table: every foreign key of its rows names an existing row,
  // and that row belongs to the same realm.

  predicate ClientOf(ids: Identities, client: Id, realm: Id) {
    client in ids.clients && ids.clients[client].realm == realm
  }

  predicate UserOf(ids: Identities, user: Id, realm: Id) {
    user in ids.users && ids.users[user].realm == realm
  }

  predicate FlowOf(ids: Identities, flow: Id, realm: Id) {
    flow in ids.flows && ids.flows[flow].realm == realm
  }

  predicate SessionOf(sessions: map<Id, UserSession>, session: Id, realm: Id) {
    session in sessions && sessions[session].realm == realm
  }

  predicate AuthOf(authSessions: map<Id, AuthSession>, tab: Id, realm: Id) {
    tab in authSessions && authSessions[tab].realm == realm
  }

  predicate ResetLinks(realms: map<Id, Realm>, flows: map<Id, Flow>) {
    forall r | r in realms && realms[r].resetFlow.Some? ::
      realms[r].resetFlow.value in flows && flows[realms[r].resetFlow.value].realm == r
  }

  predicate PeopleRefs(realmIds: set<Id>, clients: map<Id, Client>, users: map<Id, User>,
                       credentials: map<Id, Credential>)
  {
    && (forall c | c in clients :: clients[c].realm in realmIds)
    && (forall u | u in users :: users[u].realm in realmIds)
    && (forall c | c in credentials :: credentials[c].user in users)
  }

  predicate FlowRefs(realmIds: set<Id>, flows: map<Id, Flow>, executions: map<Id, Execution>) {
    && (forall f | f in flows :: flows[f].realm in realmIds)
    && (forall e | e in executions :: executions[e].flow in flows)
  }

  predicate IdentityRefs(ids: Identities) {
    && ResetLinks(ids.realms, ids.flows)
    && PeopleRefs(ids.realms.Keys, ids.clients, ids.users, ids.credentials)
    && FlowRefs(ids.realms.Keys, ids.flows, ids.executions)
  }

  predicate KeyTable(ids: Identities, keys: map<Id, Key>) {
    forall k | k in keys :: keys[k].realm in ids.realms
  }

  predicate BucketTable(ids: Identities, buckets: map<BucketKey, Bucket>) {
    forall b | b in buckets :: b.realm in ids.realms
  }

  predicate AuthRefs(ids: Identities, row: AuthSession) {
    && row.realm in ids.realms && ClientOf(ids, row.client, row.realm)
    && (row.flow.Some? ==> FlowOf(ids, row.flow.value, row.realm))
    && (row.selectedUser.Some? ==> UserOf(ids, row.selectedUser.value, row.realm))
  }

  predicate AuthTable(ids: Identities, authSessions: map<Id, AuthSession>) {
    forall a | a in authSessions :: AuthRefs(ids, authSessions[a])
  }

  predicate MailRefs(ids: Identities, authSessions: map<Id, AuthSession>, row: ResetEmail) {
    && row.realm in ids.realms && UserOf(ids, row.user, row.realm)
    && (row.client.Some? ==> ClientOf(ids, row.client.value, row.realm))
    && (row.authSession.Some? ==> AuthOf(authSessions, row.authSession.value, row.realm))
  }

  predicate MailTable(ids: Identities, authSessions: map<Id, AuthSession>, mails: map<Id, ResetEmail>) {
    forall m | m in mails :: MailRefs(ids, authSessions, mails[m])
  }

  predicate EventRefs(ids: Identities, sessions: map<Id, UserSession>, row: Event) {
    && row.realm in ids.realms
    && (row.client.Some? ==> ClientOf(ids, row.client.value, row.realm))
    && (row.user.Some? ==> UserOf(ids, row.user.value, row.realm))
    && (row.session.Some? ==> SessionOf(sessions, row.session.value, row.realm))
  }

  predicate EventTable(ids: Identities, sessions: map<Id, UserSession>, events: map<Id, Event>) {
    forall e | e in events :: EventRefs(ids, sessions, events[e])
  }

  predicate SessionRefs(ids: Identities, row: UserSession) {
    && row.realm in ids.realms && ClientOf(ids, row.client, row.realm)
    && UserOf(ids, row.user, row.realm)
  }

  predicate SessionTable(ids: Identities, sessions: map<Id, UserSession>) {
    forall s | s in sessions :: SessionRefs(ids, sessions[s])
  }

  predicate CodeRefs(ids: Identities, sessions: map<Id, UserSession>, row: Code) {
    && row.realm in ids.realms && ClientOf(ids, row.client, row.realm)
    && UserOf(ids, row.user, row.realm)
    && SessionOf(sessions, row.session, row.realm) && sessions[row.session].user == row.user
  }

  predicate CodeTable(ids: Identities, sessions: map<Id, UserSession>, codes: map<Id, Code>) {
    forall c | c in codes :: CodeRefs(ids, sessions, codes[c])
  }

  predicate TokenRefs(ids: Identities, sessions: map<Id, UserSession>, row: RefreshToken) {
    && row.realm in ids.realms && ClientOf(ids, row.client, row.realm)
    && UserOf(ids, row.user, row.realm)
    && SessionOf(sessions, row.session, row.realm) && sessions[row.session].user == row.user
  }

  predicate TokenTable(ids: Identities, sessions: map<Id, UserSession>, tokens: map<Id, RefreshToken>) {
    forall t | t in tokens :: TokenRefs(ids, sessions, tokens[t])
  }

  /** The foreign key of `refresh_tokens` to itself. */
  ghost predicate LinkTable(tokens: map<Id, RefreshToken>) {
    forall a, b :: a in tokens && tokens[a].replacedBy == Some(b) ==> b in tokens
  }

  /** Every foreign key of the schema holds. */
  ghost predicate Integrity(db: Db) {
    && IdentityRefs(db.ids) && KeyTable(db.ids, db.keys) && BucketTable(db.ids, db.buckets)
    && AuthTable(db.ids, db.authSessions) && MailTable(db.ids, db.authSessions, db.resetEmails)
    && EventTable(db.ids, db.sessions, db.events) && SessionTable(db.ids, db.sessions)
    && CodeTable(db.ids, db.sessions, db.codes) && TokenTable(db.ids, db.sessions, db.tokens)
    && LinkTable(db.tokens)
  }
}

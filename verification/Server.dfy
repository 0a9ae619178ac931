/** The server as a state machine: requests in any order, each one transaction. */
module Server {
  import opened Prelude
  import opened Tables
  import opened Protocol
  import opened Invariants
  import opened Retention
  import opened Removal
  import opened RealmRemoval
  import opened Steps
  import opened IdentitySteps

  datatype Request =
    | RequestRefresh(realm: Id, client: Id, raw: Jwt, narrowed: Option<Scope>)
    | RequestExchange(realm: Id, client: Id, code: Id, uri: string, verifier: Option<string>)
    | RequestPassword(realm: Id, client: Id, user: Id, scope: Scope)
    | RequestAuthorize(realm: Id, client: Id, cookie: Option<Id>, params: AuthParams)
    | RequestLogin(tab: Id, user: Id)
    | RequestVerify(realm: Id, raw: Jwt, audience: string, typ: TokenType)
    | RequestHintLogout(realm: Id, raw: Jwt, hintAudience: Option<string>)
    | RequestRefreshLogout(realm: Id, client: Id, raw: Jwt)
    | RequestFailure(bucket: BucketKey)
    | RequestBlocked(bucket: BucketKey)
    | RequestClear(bucket: BucketKey)
    | RequestEnsureKey(realm: Id)
    | RequestRotateKey(realm: Id)
    | RequestAdminister(change: Change)
    | RequestBatch(cutoff: Time, batch: Batch)
    | RequestDeleteClient(client: Id, pick: Pick)
    | RequestDeleteRealm(realm: Id)

  ghost function RemoveClient(db: Db, c: Id, pick: Pick): (Db, Reply) {
    if c in db.ids.clients then (DeleteClient(db, c, Owners(db, c, pick)), Done) else (db, Refused(NotFound))
  }

  function RemoveRealm(db: Db, r: Id): (Db, Reply) {
    if r in db.ids.realms then (DeleteRealm(db, r), Done) else (db, Refused(NotFound))
  }

  /** One request at one time. A cleanup commits batch by batch, with a cutoff read
      when it started; other requests may come between two batches. The `pick` of a
      client deletion stands for the database's choice among several rows of an
      unordered query. */
  ghost function Apply(db: Db, cfg: Config, request: Request, now: Time): (Db, Reply) {
    match request
    case RequestRefresh(realm, client, raw, narrowed) => RefreshGrant(db, cfg, realm, client, raw, narrowed, now)
    case RequestExchange(realm, client, code, uri, verifier) =>
      ExchangeGrant(db, cfg, realm, client, code, uri, verifier, now)
    case RequestPassword(realm, client, user, scope) => PasswordGrant(db, cfg, realm, client, user, scope, now)
    case RequestAuthorize(realm, client, cookie, params) => Authorize(db, cfg, realm, client, cookie, params, now)
    case RequestLogin(tab, user) => CompleteLogin(db, cfg, tab, user, now)
    case RequestVerify(realm, raw, audience, typ) =>
      (db, if Verifies(db, raw, realm, audience, typ, now) then Verified(raw.claims) else Refused(InvalidToken))
    case RequestHintLogout(realm, raw, audience) => LogoutByHint(db, realm, raw, audience, now)
    case RequestRefreshLogout(realm, client, raw) => LogoutByRefresh(db, realm, client, raw, now)
    case RequestFailure(bucket) => CountFailure(db, cfg, bucket, now)
    case RequestBlocked(bucket) => AskBlocked(db, bucket, now)
    case RequestClear(bucket) => ClearFailures(db, bucket)
    case RequestEnsureKey(realm) => EnsureKey(db, realm)
    case RequestRotateKey(realm) => RotateKey(db, realm, now)
    case RequestAdminister(change) => Administer(db, change)
    case RequestBatch(cutoff, batch) =>
      (if cutoff <= now && BatchFits(db, cutoff, batch) then DropBatch(db, batch) else db, Done)
    case RequestDeleteClient(client, pick) => RemoveClient(db, client, pick)
    case RequestDeleteRealm(realm) => RemoveRealm(db, realm)
  }

  datatype Step = Step(request: Request, now: Time)

  /** The clock never runs backwards. */
  predicate Ordered(steps: seq<Step>, start: Time)
    decreases |steps|
  {
    steps == [] || (start <= steps[0].now && Ordered(steps[1..], steps[0].now))
  }

  ghost function Run(db: Db, cfg: Config, steps: seq<Step>): Db
    decreases |steps|
  {
    if steps == [] then db
    else Run(Apply(db, cfg, steps[0].request, steps[0].now).0, cfg, steps[1..])
  }

  function Clock(steps: seq<Step>, start: Time): Time
    decreases |steps|
  {
    if steps == [] then start else Clock(steps[1..], steps[0].now)
  }

  // ---------------------------------------------------------------- runs, step by step

  lemma RunNil(db: Db, cfg: Config)
    ensures Run(db, cfg, []) == db
  {
    hide Apply;
  }

  lemma ApplyChange(db: Db, cfg: Config, change: Change, now: Time)
    ensures Apply(db, cfg, RequestAdminister(change), now) == Administer(db, change)
  {
    hide Administer;
  }

  lemma RunCons(db: Db, cfg: Config, steps: seq<Step>)
    requires steps != []
    ensures Run(db, cfg, steps) == Run(Apply(db, cfg, steps[0].request, steps[0].now).0, cfg, steps[1..])
  {
    hide Apply;
  }

  // ---------------------------------------------------------------- the invariant over runs

  lemma ProtocolKeepsInv(db: Db, cfg: Config, request: Request, now: Time)
    requires Inv(db, now)
    requires request.RequestRefresh? || request.RequestExchange? || request.RequestPassword?
             || request.RequestAuthorize? || request.RequestLogin? || request.RequestVerify?
             || request.RequestHintLogout? || request.RequestRefreshLogout?
    ensures Inv(Apply(db, cfg, request, now).0, now)
  {
    hide Inv, RefreshGrant, ExchangeGrant, PasswordGrant, Authorize, CompleteLogin, Verifies,
         LogoutByHint, LogoutByRefresh;
    match request
    case RequestRefresh(realm, client, raw, narrowed) => RefreshKeepsInv(db, cfg, realm, client, raw, narrowed, now);
    case RequestExchange(realm, client, code, uri, verifier) =>
      ExchangeKeepsInv(db, cfg, realm, client, code, uri, verifier, now);
    case RequestPassword(realm, client, user, scope) => PasswordKeepsInv(db, cfg, realm, client, user, scope, now);
    case RequestAuthorize(realm, client, cookie, params) =>
      AuthorizeKeepsInv(db, cfg, realm, client, cookie, params, now);
    case RequestLogin(tab, user) => CompleteLoginKeepsInv(db, cfg, tab, user, now);
    case RequestHintLogout(realm, raw, audience) => HintLogoutKeepsInv(db, realm, raw, audience, now);
    case RequestRefreshLogout(realm, client, raw) => RefreshLogoutKeepsInv(db, realm, client, raw, now);
    case _ =>
  }

  lemma AdministrationKeepsInv(db: Db, cfg: Config, request: Request, now: Time)
    requires Inv(db, now)
    requires !(request.RequestRefresh? || request.RequestExchange? || request.RequestPassword?
               || request.RequestAuthorize? || request.RequestLogin? || request.RequestVerify?
               || request.RequestHintLogout? || request.RequestRefreshLogout?)
    ensures Inv(Apply(db, cfg, request, now).0, now)
  {
    hide Inv, CountFailure, AskBlocked, ClearFailures, EnsureKey, RotateKey, Administer, DropBatch, BatchFits,
         DeleteClient, DeleteRealm, Rehomes, Owners;
    match request
    case RequestFailure(bucket) => CountFailureKeepsInv(db, cfg, bucket, now);
    case RequestBlocked(bucket) => AskingChangesNothing(db, bucket, now);
    case RequestClear(bucket) => ClearFailuresKeepsInv(db, bucket, now);
    case RequestEnsureKey(realm) => EnsureKeyKeepsInv(db, realm, now);
    case RequestRotateKey(realm) => RotateKeyKeepsInv(db, realm, now);
    case RequestAdminister(change) => AdministerKeepsInv(db, change, now);
    case RequestBatch(cutoff, batch) =>
      if BatchFits(db, cutoff, batch) { BatchKeepsInv(db, cutoff, batch, now); }
    case RequestDeleteClient(client, pick) =>
      OwnersFit(db, client, pick);
      DeleteClientKeepsInv(db, client, Owners(db, client, pick), now);
    case RequestDeleteRealm(realm) => DeleteRealmKeepsInv(db, realm, now);
    case _ =>
  }

  lemma AskingChangesNothing(db: Db, b: BucketKey, now: Time)
    ensures AskBlocked(db, b, now).0 == db
  {}

  /** Every request keeps every foreign key, the linearity of refresh families,
      the lifetime bounds and the uniqueness of the active key. */
  lemma ApplyKeepsInv(db: Db, cfg: Config, request: Request, now: Time)
    requires Inv(db, now)
    ensures Inv(Apply(db, cfg, request, now).0, now)
  {
    hide Inv, Apply;
    if request.RequestRefresh? || request.RequestExchange? || request.RequestPassword?
       || request.RequestAuthorize? || request.RequestLogin? || request.RequestVerify?
       || request.RequestHintLogout? || request.RequestRefreshLogout?
    {
      ProtocolKeepsInv(db, cfg, request, now);
    } else {
      AdministrationKeepsInv(db, cfg, request, now);
    }
  }

  lemma {:induction false} RunKeepsInv(db: Db, cfg: Config, steps: seq<Step>, start: Time)
    requires Inv(db, start) && Ordered(steps, start)
    ensures Inv(Run(db, cfg, steps), Clock(steps, start))
    decreases |steps|
  {
    hide Inv, Apply;
    if steps != [] {
      var first := steps[0];
      ClockAdvances(db, start, first.now);
      ApplyKeepsInv(db, cfg, first.request, first.now);
      RunKeepsInv(Apply(db, cfg, first.request, first.now).0, cfg, steps[1..], first.now);
    }
  }

  /** The requests create no flows, credentials or reset messages, so runs from here
      have none; `RunKeepsInv` starts from any sound state, which may have them. */
  const EMPTY: Db := Db(Identities(map[], map[], map[], map[], map[], map[]), map[], map[], map[],
                        map[], map[], map[], map[], map[], 0)

  lemma EmptyIsSound(start: Time)
    ensures Inv(EMPTY, start)
  {}

  /** The rows of a family share session, client and user, one row a generation;
      at most the last one is unused; scopes only shrink along the line; and a
      replacement link is null or names the next generation. */
  ghost predicate FamilyLines(tokens: map<Id, RefreshToken>) {
    && (forall a, b | a in tokens && b in tokens && tokens[a].family == tokens[b].family ::
          && SameFamily(tokens[a], tokens[b])
          && (tokens[a].generation == tokens[b].generation ==> a == b)
          && (tokens[a].usedAt.None? ==> tokens[b].generation <= tokens[a].generation)
          && (tokens[a].usedAt.None? && tokens[b].usedAt.None? ==> a == b)
          && (tokens[a].generation <= tokens[b].generation ==> Narrows(tokens[b].scope, tokens[a].scope)))
    && (forall a, b :: a in tokens && tokens[a].replacedBy == Some(b) ==>
          && b in tokens && tokens[b].family == tokens[a].family
          && tokens[b].generation == tokens[a].generation + 1)
  }

  lemma LinearIsFamilyLines(tokens: map<Id, RefreshToken>)
    requires FamiliesOk(tokens)
    ensures FamilyLines(tokens)
  {
    hide Narrows;
    forall a, b | a in tokens && b in tokens && tokens[a].family == tokens[b].family
      ensures InLine(a, tokens[a], b, tokens[b]) && InLine(b, tokens[b], a, tokens[a])
      ensures tokens[a].generation <= tokens[b].generation ==> Narrows(tokens[b].scope, tokens[a].scope)
    {
      NarrowsItself(tokens[a].scope);
    }
  }

  /** From an empty database, whatever requests arrive in whatever order, refresh
      families stay linear. */
  lemma FamiliesStayLinear(cfg: Config, steps: seq<Step>, start: Time)
    requires Ordered(steps, start)
    ensures FamilyLines(Run(EMPTY, cfg, steps).tokens)
  {
    EmptyIsSound(start);
    RunKeepsInv(EMPTY, cfg, steps, start);
    hide Integrity, RowsOk, Drawn, KeysOk, FamiliesOk, FamilyLines, Run;
    LinearIsFamilyLines(Run(EMPTY, cfg, steps).tokens);
  }

  lemma NarrowsItself(scope: Scope)
    ensures Narrows(scope, scope)
  {}
}

/** The main theorem on cleanup: no reply depends on it. */
module Invisibility {
  import opened Prelude
  import opened Tables
  import opened Protocol
  import opened Invariants
  import opened Retention
  import opened Removal
  import opened RealmRemoval
  import opened Server
  import opened Observation
  import opened ClientDeletion
  import opened Throttle

  // ---------------------------------------------------------------- throttle buckets

  /** What every recorded bucket satisfies: a block ends `lock` after the last
      failure, and the row expires when both the window and the lock have passed. */
  predicate BucketOk(b: Bucket, cfg: Config) {
    && b.firstFailure <= b.lastFailure
    && b.expiresAt == b.lastFailure + Max(Window(cfg), Lock(cfg))
    && (b.blockedUntil.Some? ==> b.blockedUntil.value == b.lastFailure + Lock(cfg))
  }

  ghost predicate BucketsOk(buckets: map<BucketKey, Bucket>, cfg: Config, clock: Time) {
    forall x | x in buckets :: BucketOk(buckets[x], cfg) && buckets[x].lastFailure <= clock
  }

  lemma RecordingKeepsOk(bucket: Option<Bucket>, cfg: Config, now: Time)
    requires bucket.Some? ==> BucketOk(bucket.value, cfg) && bucket.value.lastFailure <= now
    ensures BucketOk(RecordFailure(bucket, cfg, now), cfg) && RecordFailure(bucket, cfg, now).lastFailure <= now
  {}

  /** An expired bucket blocks nobody and counts for nothing. */
  lemma ExpiredBucketInert(b: Bucket, cfg: Config, now: Time)
    requires cfg.Positive() && BucketOk(b, cfg) && b.expiresAt <= now
    ensures !IsBlocked(Some(b), now) && RecordFailure(Some(b), cfg, now) == RecordFailure(None, cfg, now)
  {}

  lemma BucketQueriesAgree(a: Db, b: Db, cfg: Config, x: BucketKey, now: Time)
    requires Sim(a, b, now) && BucketsOk(a.buckets, cfg, now) && cfg.Positive()
    ensures IsBlocked(BucketOf(b, x), now) == IsBlocked(BucketOf(a, x), now)
    ensures RecordFailure(BucketOf(b, x), cfg, now) == RecordFailure(BucketOf(a, x), cfg, now)
  {
    hide SessionsSim, CodesSim, TokensSim, AuthsSim, RecordFailure, IsBlocked, BucketOk;
    if x in a.buckets && x !in b.buckets {
      assert BucketOk(a.buckets[x], cfg);
      ExpiredBucketInert(a.buckets[x], cfg, now);
      AbsentIsUnblocked(now);
    }
  }

  lemma AbsentIsUnblocked(now: Time)
    ensures !IsBlocked(None, now)
  {}

  lemma BucketsSimSteps(a: Db, b: Db, x: BucketKey, row: Bucket, now: Time)
    requires Sim(a, b, now)
    ensures Sim(a.(buckets := a.buckets[x := row]), b.(buckets := b.buckets[x := row]), now)
    ensures Sim(a.(buckets := a.buckets - {x}), b.(buckets := b.buckets - {x}), now)
  {
    hide SessionsSim, CodesSim, TokensSim, AuthsSim;
  }

  lemma BucketRequestsAgree(a: Db, b: Db, cfg: Config, request: Request, now: Time)
    requires request.RequestFailure? || request.RequestBlocked? || request.RequestClear?
    requires Sim(a, b, now) && BucketsOk(a.buckets, cfg, now) && cfg.Positive()
    ensures Agree(Apply(a, cfg, request, now), Apply(b, cfg, request, now), now)
  {
    hide Sim, BucketsOk, BucketOf, IsBlocked, RecordFailure;
    SameIdentities(a, b, now);
    BucketQueriesAgree(a, b, cfg, request.bucket, now);
    BucketsSimSteps(a, b, request.bucket, RecordFailure(BucketOf(a, request.bucket), cfg, now), now);
  }

  lemma CountFailureKeepsBuckets(db: Db, cfg: Config, x: BucketKey, now: Time)
    requires BucketsOk(db.buckets, cfg, now)
    ensures BucketsOk(CountFailure(db, cfg, x, now).0.buckets, cfg, now)
  {
    hide RecordFailure, BucketOk;
    RecordingKeepsOk(BucketOf(db, x), cfg, now);
  }

  // ---------------------------------------------------------------- keys and identities

  lemma AdministerAgrees(a: Db, b: Db, change: Change, now: Time)
    requires Sim(a, b, now)
    ensures Agree(Administer(a, change), Administer(b, change), now)
  {
    hide SessionsSim, CodesSim, TokensSim, AuthsSim, BucketsSim, Verdict, Changed;
  }

  lemma EnsureKeyAgrees(a: Db, b: Db, realm: Id, now: Time)
    requires Sim(a, b, now)
    ensures Agree(EnsureKey(a, realm), EnsureKey(b, realm), now)
  {
    hide SessionsSim, CodesSim, TokensSim, AuthsSim, BucketsSim, ActiveKeys, OnlyKeys;
  }

  lemma RotateKeyAgrees(a: Db, b: Db, realm: Id, now: Time)
    requires Sim(a, b, now)
    ensures Agree(RotateKey(a, realm, now), RotateKey(b, realm, now), now)
  {
    hide SessionsSim, CodesSim, TokensSim, AuthsSim, BucketsSim, Deactivated, OnlyKeys;
  }

  lemma DeleteRealmSim(a: Db, b: Db, r: Id, now: Time)
    requires Sim(a, b, now)
    requires CodeTable(a.ids, a.sessions, a.codes) && TokenTable(a.ids, a.sessions, a.tokens)
    ensures Sim(DeleteRealm(a, r), DeleteRealm(b, r), now)
  {
    DeleteRealmTokensSim(a, b, r, now);
    DeleteRealmCodesSim(a, b, r, now);
    hide CodesSim, TokensSim, CodeTable, TokenTable;
  }

  lemma DeleteRealmTokensSim(a: Db, b: Db, r: Id, now: Time)
    requires SessionsSim(a.sessions, b.sessions, now) && TokensSim(a.sessions, a.tokens, b.tokens, now)
    requires TokenTable(a.ids, a.sessions, a.tokens)
    ensures TokensSim(a.sessions - SessionsOf(a.sessions, r), a.tokens - TokensOf(a.tokens, r),
                      b.tokens - TokensOf(b.tokens, r), now)
  {
    forall t | t in a.tokens ensures TokenRefs(a.ids, a.sessions, a.tokens[t]) {}
  }

  lemma DeleteRealmCodesSim(a: Db, b: Db, r: Id, now: Time)
    requires SessionsSim(a.sessions, b.sessions, now) && CodesSim(a.sessions, a.codes, b.codes, now)
    requires CodeTable(a.ids, a.sessions, a.codes)
    ensures CodesSim(a.sessions - SessionsOf(a.sessions, r), a.codes - CodesOf(a.codes, r),
                     b.codes - CodesOf(b.codes, r), now)
  {
    forall c | c in a.codes ensures CodeRefs(a.ids, a.sessions, a.codes[c]) {}
  }

  // ---------------------------------------------------------------- one request

  lemma ProtocolRequestsAgree(a: Db, b: Db, cfg: Config, request: Request, now: Time)
    requires Sim(a, b, now) && NextIsUnused(a)
    requires request.RequestRefresh? || request.RequestExchange? || request.RequestPassword?
             || request.RequestAuthorize? || request.RequestLogin? || request.RequestVerify?
             || request.RequestHintLogout? || request.RequestRefreshLogout?
             || request.RequestAdminister? || request.RequestEnsureKey? || request.RequestRotateKey?
    ensures Agree(Apply(a, cfg, request, now), Apply(b, cfg, request, now), now)
  {
    hide Sim, NextIsUnused, RefreshGrant, ExchangeGrant, PasswordGrant, Authorize, CompleteLogin, Verifies,
         LogoutByHint, LogoutByRefresh, Administer, EnsureKey, RotateKey, OnlyKeys;
    match request
    case RequestRefresh(realm, client, raw, narrowed) =>
      RefreshAgrees(a, b, cfg, realm, client, raw, narrowed, now);
    case RequestExchange(realm, client, code, uri, verifier) =>
      ExchangeAgrees(a, b, cfg, realm, client, code, uri, verifier, now);
    case RequestPassword(realm, client, user, scope) => PasswordAgrees(a, b, cfg, realm, client, user, scope, now);
    case RequestAuthorize(realm, client, cookie, params) =>
      AuthorizeAgrees(a, b, cfg, realm, client, cookie, params, now);
    case RequestLogin(tab, user) => CompleteLoginAgrees(a, b, cfg, tab, user, now);
    case RequestVerify(realm, raw, audience, typ) => VerificationAgrees(a, b, raw, realm, audience, typ, now);
    case RequestHintLogout(realm, raw, audience) => HintLogoutAgrees(a, b, realm, raw, audience, now);
    case RequestRefreshLogout(realm, client, raw) => RefreshLogoutAgrees(a, b, realm, client, raw, now);
    case RequestAdminister(change) => AdministerAgrees(a, b, change, now);
    case RequestEnsureKey(realm) => EnsureKeyAgrees(a, b, realm, now);
    case RequestRotateKey(realm) => RotateKeyAgrees(a, b, realm, now);
    case _ =>
  }

  lemma InvTables(db: Db, now: Time)
    requires Inv(db, now)
    ensures CodeTable(db.ids, db.sessions, db.codes) && TokenTable(db.ids, db.sessions, db.tokens)
  {
    hide IdentityRefs, KeyTable, BucketTable, AuthTable, MailTable, EventTable, SessionTable, CodeTable, TokenTable,
         LinkTable, FamiliesOk, RowsOk, KeysOk, Drawn;
  }

  /** The same request, except that the database may choose other rows in the deletion
      of a client. */
  ghost predicate Repicked(x: Request, y: Request) {
    y == x || (x.RequestDeleteClient? && y.RequestDeleteClient? && y.client == x.client)
  }

  /** A deletion treats two databases alike: by one choice among rows that agree, or by
      any two choices where nothing is to be chosen. */
  ghost predicate DeletionFits(a: Db, b: Db, x: Request, y: Request, now: Time) {
    x.RequestDeleteClient? ==> (y == x && OwnersAgree(a, b, x.client, now)) || OwnersCertain(a, b, x.client, now)
  }

  /** One request, whatever it is, is answered alike by the cleaned and by the
      uncleaned database, and leaves them indistinguishable. */
  lemma RequestsAgree(a: Db, b: Db, cfg: Config, x: Request, y: Request, now: Time)
    requires Sim(a, b, now) && Inv(a, now) && BucketsOk(a.buckets, cfg, now) && cfg.Positive()
    requires Repicked(x, y) && !x.RequestBatch? && DeletionFits(a, b, x, y, now)
    ensures Agree(Apply(a, cfg, x, now), Apply(b, cfg, y, now), now)
  {
    hide Sim, Inv, BucketsOk, NextIsUnused, Apply, DeleteRealm, CodeTable, TokenTable, OwnersAgree, OwnersCertain,
         SameResult, Deleted;
    if x.RequestFailure? || x.RequestBlocked? || x.RequestClear? {
      BucketRequestsAgree(a, b, cfg, x, now);
    } else if x.RequestDeleteRealm? {
      InvTables(a, now);
      DeleteRealmSim(a, b, x.realm, now);
      RemovalsAgree(a, b, cfg, x, y, now);
    } else if x.RequestDeleteClient? {
      if OwnersCertain(a, b, x.client, now) { CertainOwners(a, b, x.client, x.pick, y.pick, now); }
      else { AgreeingOwners(a, b, x.client, x.pick, now); }
      DeletionKeepsSim(a, b, x.client, x.pick, y.pick, now);
      RemovalsAgree(a, b, cfg, x, y, now);
    } else {
      InvNextIsUnused(a, now);
      ProtocolRequestsAgree(a, b, cfg, x, now);
    }
  }

  lemma RemovalsAgree(a: Db, b: Db, cfg: Config, x: Request, y: Request, now: Time)
    requires Sim(a, b, now) && Repicked(x, y)
    requires x.RequestDeleteRealm? ==> Sim(DeleteRealm(a, x.realm), DeleteRealm(b, x.realm), now)
    requires x.RequestDeleteClient? ==>
      Sim(Deleted(a, x.client, x.pick), Deleted(b, x.client, y.pick), now)
    requires x.RequestDeleteRealm? || x.RequestDeleteClient?
    ensures Agree(Apply(a, cfg, x, now), Apply(b, cfg, y, now), now)
  {
    hide Sim, DeleteRealm, Deleted, Apply, RemoveClient, RemoveRealm;
    SameIdentities(a, b, now);
    RemovalApplied(a, cfg, x, now);
    RemovalApplied(b, cfg, y, now);
    RemovalIs(a, x);
    RemovalIs(b, y);
  }

  lemma RemovalApplied(db: Db, cfg: Config, request: Request, now: Time)
    ensures request.RequestDeleteRealm? ==> Apply(db, cfg, request, now) == RemoveRealm(db, request.realm)
    ensures request.RequestDeleteClient? ==>
      Apply(db, cfg, request, now) == RemoveClient(db, request.client, request.pick)
  {
    hide RemoveRealm, RemoveClient;
  }

  lemma RemovalIs(db: Db, request: Request)
    ensures request.RequestDeleteRealm? ==>
      RemoveRealm(db, request.realm)
      == (if request.realm in db.ids.realms then (DeleteRealm(db, request.realm), Done) else (db, Refused(NotFound)))
    ensures request.RequestDeleteClient? ==>
      RemoveClient(db, request.client, request.pick)
      == (if request.client in db.ids.clients then (Deleted(db, request.client, request.pick), Done)
          else (db, Refused(NotFound)))
  {
    hide DeleteRealm, DeleteClient, Owners;
  }

  // ---------------------------------------------------------------- whole runs

  lemma ProtocolKeepsBuckets(db: Db, cfg: Config, request: Request, now: Time)
    requires !request.RequestFailure? && !request.RequestClear? && !request.RequestDeleteRealm?
             && !request.RequestDeleteClient? && !request.RequestBatch?
    ensures Apply(db, cfg, request, now).0.buckets == db.buckets
  {
    hide RefreshGrant, ExchangeGrant, PasswordGrant, Authorize, CompleteLogin, Verifies, LogoutByHint,
         LogoutByRefresh, EnsureKey, RotateKey, Verdict, Changed, IsBlocked, KeyForward;
  }

  lemma StepKeepsBuckets(db: Db, cfg: Config, request: Request, clock: Time, now: Time)
    requires BucketsOk(db.buckets, cfg, clock) && clock <= now && !request.RequestBatch?
    ensures BucketsOk(Apply(db, cfg, request, now).0.buckets, cfg, now)
  {
    hide BucketOk, CountFailure, ClearFailures, DeleteRealm, RefreshGrant, ExchangeGrant, PasswordGrant, Authorize,
         CompleteLogin, Verifies, LogoutByHint, LogoutByRefresh, EnsureKey, RotateKey, Administer, AskBlocked, Owners;
    match request
    case RequestDeleteClient(_, _) =>
    case RequestFailure(x) => CountFailureKeepsBuckets(db, cfg, x, now);
    case RequestClear(x) => ClearingKeepsBuckets(db, cfg, x, now);
    case RequestDeleteRealm(r) => DeletingKeepsBuckets(db, cfg, r, now);
    case _ => ProtocolKeepsBuckets(db, cfg, request, now);
  }

  lemma ClearingKeepsBuckets(db: Db, cfg: Config, x: BucketKey, now: Time)
    requires BucketsOk(db.buckets, cfg, now)
    ensures BucketsOk(ClearFailures(db, x).0.buckets, cfg, now)
  {}

  lemma DeletingKeepsBuckets(db: Db, cfg: Config, r: Id, now: Time)
    requires BucketsOk(db.buckets, cfg, now)
    ensures BucketsOk(DeleteRealm(db, r).buckets, cfg, now)
  {}

  /** The replies of a run, those to cleanup batches left out. */
  ghost function Observed(db: Db, cfg: Config, steps: seq<Step>): seq<Reply>
    decreases |steps|
  {
    if steps == [] then []
    else
      var (after, reply) := Apply(db, cfg, steps[0].request, steps[0].now);
      (if steps[0].request.RequestBatch? then [] else [reply]) + Observed(after, cfg, steps[1..])
  }

  /** The same requests without any cleanup. */
  function WithoutCleanup(steps: seq<Step>): seq<Step>
    decreases |steps|
  {
    if steps == [] then []
    else (if steps[0].request.RequestBatch? then [] else [steps[0]]) + WithoutCleanup(steps[1..])
  }

  /** `plain` is the run `steps` without its cleanup batches, and at each client deletion
      the rows that name the new owners agree with and without the batches before it;
      the choices may differ where no unexpired session has a choice. */
  ghost predicate DeletionsAgree(a: Db, b: Db, cfg: Config, plain: seq<Step>, steps: seq<Step>)
    decreases |steps|
  {
    if steps == [] then plain == []
    else
      var first := steps[0];
      var y := Apply(b, cfg, first.request, first.now).0;
      if first.request.RequestBatch? then DeletionsAgree(a, y, cfg, plain, steps[1..])
      else
        && plain != [] && plain[0].now == first.now && Repicked(plain[0].request, first.request)
        && DeletionFits(a, b, plain[0].request, first.request, first.now)
        && DeletionsAgree(Apply(a, cfg, plain[0].request, first.now).0, y, cfg, plain[1..], steps[1..])
  }

  lemma {:induction false} SimilarRuns(a: Db, b: Db, cfg: Config, plain: seq<Step>, steps: seq<Step>, start: Time)
    requires Sim(a, b, start) && Inv(a, start) && BucketsOk(a.buckets, cfg, start) && cfg.Positive()
    requires Ordered(steps, start) && DeletionsAgree(a, b, cfg, plain, steps)
    ensures Observed(b, cfg, steps) == Observed(a, cfg, plain)
    decreases |steps|
  {
    hide Sim, Inv, BucketsOk, Apply, BatchFits, DropBatch, DeletionFits;
    if steps != [] {
      var first, rest := steps[0], steps[1..];
      SimAdvances(a, b, start, first.now);
      ClockAdvances(a, start, first.now);
      BucketsLater(a.buckets, cfg, start, first.now);
      var y := Apply(b, cfg, first.request, first.now);
      if first.request.RequestBatch? {
        BatchStepSim(a, b, cfg, first.request, first.now);
        SimilarRuns(a, y.0, cfg, plain, rest, first.now);
      } else {
        var x := Apply(a, cfg, plain[0].request, first.now);
        RequestsAgree(a, b, cfg, plain[0].request, first.request, first.now);
        ApplyKeepsInv(a, cfg, plain[0].request, first.now);
        StepKeepsBuckets(a, cfg, plain[0].request, first.now, first.now);
        SimilarRuns(x.0, y.0, cfg, plain[1..], rest, first.now);
      }
    }
  }

  lemma BucketsLater(buckets: map<BucketKey, Bucket>, cfg: Config, clock: Time, now: Time)
    requires BucketsOk(buckets, cfg, clock) && clock <= now
    ensures BucketsOk(buckets, cfg, now)
  {
    hide BucketOk;
  }

  lemma BatchStepSim(a: Db, b: Db, cfg: Config, request: Request, now: Time)
    requires Sim(a, b, now) && request.RequestBatch?
    ensures Sim(a, Apply(b, cfg, request, now).0, now)
  {
    hide Sim, BatchFits, DropBatch;
    if request.cutoff <= now && BatchFits(b, request.cutoff, request.batch) {
      BatchSim(a, b, request.cutoff, request.batch, now);
    }
  }

  /** Cleanup is unobservable. From any sound database, whatever requests arrive and
      wherever batches of whatever size and cutoff come between them, every reply is
      the one given without any cleanup, provided that at each client deletion the rows
      agree that name the new owners. */
  lemma CleanupUnobservable(db: Db, cfg: Config, steps: seq<Step>, start: Time)
    requires Inv(db, start) && BucketsOk(db.buckets, cfg, start) && cfg.Positive()
    requires Ordered(steps, start) && DeletionsAgree(db, db, cfg, WithoutCleanup(steps), steps)
    ensures Observed(db, cfg, steps) == Observed(db, cfg, WithoutCleanup(steps))
  {
    hide Sim, Inv, BucketsOk;
    SimItself(db, start);
    SimilarRuns(db, db, cfg, WithoutCleanup(steps), steps, start);
  }

  /** One uninterrupted cleanup, in one batch a table, as requests of a run. */
  function CleanupSteps(db: Db, cutoff: Time, now: Time): seq<Step> {
    [Step(RequestBatch(cutoff, BatchAuths(StaleAuths(db, cutoff))), now),
     Step(RequestBatch(cutoff, BatchCodes(StaleCodes(db, cutoff))), now),
     Step(RequestBatch(cutoff, BatchTokens(StaleTokens(db, cutoff))), now),
     Step(RequestBatch(cutoff, BatchSessions(StaleSessions(db, cutoff))), now),
     Step(RequestBatch(cutoff, BatchBuckets(StaleBuckets(db, cutoff))), now)]
  }

  /** A batch request that fits is the removal of its rows. */
  lemma BatchApplied(db: Db, cfg: Config, cutoff: Time, batch: Batch, now: Time)
    requires cutoff <= now && BatchFits(db, cutoff, batch)
    ensures Apply(db, cfg, RequestBatch(cutoff, batch), now).0 == DropBatch(db, batch)
  {
    hide DropBatch, BatchFits;
  }

  lemma FiveSteps(db: Db, cfg: Config, s: seq<Step>)
    requires |s| == 5
    ensures Run(db, cfg, s) ==
      Apply(Apply(Apply(Apply(Apply(db, cfg, s[0].request, s[0].now).0, cfg, s[1].request, s[1].now).0,
                              cfg, s[2].request, s[2].now).0, cfg, s[3].request, s[3].now).0,
            cfg, s[4].request, s[4].now).0
  {
    hide Apply;
    var a := Apply(db, cfg, s[0].request, s[0].now).0;
    var b := Apply(a, cfg, s[1].request, s[1].now).0;
    var c := Apply(b, cfg, s[2].request, s[2].now).0;
    var d := Apply(c, cfg, s[3].request, s[3].now).0;
    var e := Apply(d, cfg, s[4].request, s[4].now).0;
    assert s[1..][0] == s[1] && s[1..][1..] == s[2..] && s[2..][1..] == s[3..];
    assert s[3..][1..] == s[4..] && s[4..][1..] == [];
    assert Run(d, cfg, s[4..]) == Run(e, cfg, []) == e;
    assert Run(c, cfg, s[3..]) == e;
    assert Run(b, cfg, s[2..]) == e;
  }

  /** The batches compose to the filter that the cleanup loops are proved to compute. */
  lemma CleanupIsBatches(db: Db, cfg: Config, cutoff: Time, now: Time)
    requires Integrity(db) && cutoff <= now
    ensures Run(db, cfg, CleanupSteps(db, cutoff, now)) == CleanupExpired(db, cutoff)
  {
    hide Apply, Integrity, StaleAuths, StaleCodes, StaleTokens, StaleSessions, StaleBuckets, Childless,
         DropAuths, DropCodes, DropTokens, DropSessions, DropBuckets, CodeTable, TokenTable;
    FiveSteps(db, cfg, CleanupSteps(db, cutoff, now));
    var a := DropAuths(db, StaleAuths(db, cutoff));
    var c := DropCodes(a, StaleCodes(db, cutoff));
    var t := DropTokens(c, StaleTokens(db, cutoff));
    var s := DropSessions(t, StaleSessions(db, cutoff));
    BatchesFit(db, cutoff);
    BatchApplied(db, cfg, cutoff, BatchAuths(StaleAuths(db, cutoff)), now);
    BatchApplied(a, cfg, cutoff, BatchCodes(StaleCodes(db, cutoff)), now);
    BatchApplied(c, cfg, cutoff, BatchTokens(StaleTokens(db, cutoff)), now);
    BatchApplied(t, cfg, cutoff, BatchSessions(StaleSessions(db, cutoff)), now);
    BatchApplied(s, cfg, cutoff, BatchBuckets(StaleBuckets(db, cutoff)), now);
  }

  lemma BatchesFit(db: Db, cutoff: Time)
    requires Integrity(db)
    ensures var a := DropAuths(db, StaleAuths(db, cutoff));
            var c := DropCodes(a, StaleCodes(db, cutoff));
            var t := DropTokens(c, StaleTokens(db, cutoff));
            var s := DropSessions(t, StaleSessions(db, cutoff));
            && StaleCodes(db, cutoff) <= StaleCodes(a, cutoff) && StaleTokens(db, cutoff) <= StaleTokens(c, cutoff)
            && StaleSessions(db, cutoff) <= StaleSessions(t, cutoff)
            && StaleBuckets(db, cutoff) <= StaleBuckets(s, cutoff)
            && Childless(t, StaleSessions(db, cutoff))
  {
    hide IdentityRefs, KeyTable, BucketTable, AuthTable, MailTable, EventTable, SessionTable, CodeTable, TokenTable,
         LinkTable, UnlinkTokens, UnlinkMails, UnlinkEvents, CodeStale, TokenStale, Expired, Childless;
    StaleLeavesChildless(db, cutoff);
    SameChildren(db, cutoff);
  }

  /** Authentication sessions have no codes and no tokens. */
  lemma SameChildren(db: Db, cutoff: Time)
    ensures var a := DropAuths(db, StaleAuths(db, cutoff));
            var t := DropTokens(DropCodes(a, StaleCodes(db, cutoff)), StaleTokens(db, cutoff));
            var u := DropTokens(DropCodes(db, StaleCodes(db, cutoff)), StaleTokens(db, cutoff));
            Childless(u, StaleSessions(db, cutoff)) ==> Childless(t, StaleSessions(db, cutoff))
  {
    hide UnlinkTokens, UnlinkMails, StaleCodes, StaleTokens, StaleAuths, StaleSessions;
  }

  /** The batches of a cleanup as requests of a run. */
  function BatchSteps(batches: seq<Batch>, cutoff: Time, now: Time): seq<Step> {
    seq(|batches|, i requires 0 <= i < |batches| => Step(RequestBatch(cutoff, batches[i]), now))
  }

  /** The limited batches that the cleanup loops commit, one by one, are a run of the
      server: so whatever other requests come between them is covered as well. */
  lemma {:induction false} LimitedBatchesRun(db: Db, cfg: Config, batches: seq<Batch>, cutoff: Time, limit: nat,
                                             after: Db, now: Time)
    requires Batched(db, batches, cutoff, limit, after) && cutoff <= now
    ensures Run(db, cfg, BatchSteps(batches, cutoff, now)) == after
    decreases |batches|
  {
    hide Apply, BatchFits, DropBatch, BatchSize;
    if batches != [] {
      BatchApplied(db, cfg, cutoff, batches[0], now);
      LimitedBatchesRun(DropBatch(db, batches[0]), cfg, batches[1..], cutoff, limit, after, now);
      assert BatchSteps(batches, cutoff, now)[1..] == BatchSteps(batches[1..], cutoff, now);
    }
  }
}

/** The deletion of a client is the one request that can see a cleanup. When it does,
    in terms of the replies that clients get, and when no cleanup can make it. */
module DeletionVisibility {
  import opened Prelude
  import opened Tables
  import opened Protocol
  import opened Invariants
  import opened Removal
  import opened RealmRemoval
  import opened Server
  import opened Finality
  import opened Observation
  import opened ClientDeletion
  import opened Invisibility

  predicate NoClientDeletion(steps: seq<Step>) {
    forall i | 0 <= i < |steps| :: !steps[i].request.RequestDeleteClient?
  }

  lemma {:induction false} NothingToAgreeOn(a: Db, b: Db, cfg: Config, steps: seq<Step>)
    requires NoClientDeletion(steps)
    ensures DeletionsAgree(a, b, cfg, WithoutCleanup(steps), steps)
    decreases |steps|
  {
    hide Apply, OwnersAgree, OwnersCertain;
    if steps != [] {
      var first, rest := steps[0], steps[1..];
      var y := Apply(b, cfg, first.request, first.now).0;
      if first.request.RequestBatch? {
        assert [] + WithoutCleanup(rest) == WithoutCleanup(rest);
        NothingToAgreeOn(a, y, cfg, rest);
      } else {
        assert ([first] + WithoutCleanup(rest))[1..] == WithoutCleanup(rest);
        NothingToAgreeOn(Apply(a, cfg, first.request, first.now).0, y, cfg, rest);
      }
    }
  }

  // ---------------------------------------------------------------- later replies

  /** Databases that are similar answer every later run alike. */
  lemma SimilarForever(x: Db, y: Db, cfg: Config, later: seq<Step>, now: Time)
    requires Sim(x, y, now) && Inv(x, now) && BucketsOk(x.buckets, cfg, now) && cfg.Positive()
    requires Ordered(later, now) && NoClientDeletion(later)
    ensures Observed(y, cfg, later) == Observed(x, cfg, later)
  {
    hide Sim, Inv, BucketsOk, NoClientDeletion;
    NothingToAgreeOn(x, x, cfg, later);
    NothingToAgreeOn(x, y, cfg, later);
    SimItself(x, now);
    SimilarRuns(x, x, cfg, WithoutCleanup(later), later, now);
    SimilarRuns(x, y, cfg, WithoutCleanup(later), later, now);
  }

  lemma {:induction false} ObservedSnoc(db: Db, cfg: Config, pre: seq<Step>, last: Step)
    requires forall i | 0 <= i < |pre| :: !pre[i].request.RequestBatch?
    requires !last.request.RequestBatch?
    ensures |Observed(db, cfg, pre)| == |pre|
    ensures Observed(db, cfg, pre + [last])
            == Observed(db, cfg, pre) + [Apply(Run(db, cfg, pre), cfg, last.request, last.now).1]
    decreases |pre|
  {
    hide Apply;
    if pre == [] {
      assert pre + [last] == [last];
      assert [last][1..] == [];
    } else {
      assert (pre + [last])[1..] == pre[1..] + [last];
      ObservedSnoc(Apply(db, cfg, pre[0].request, pre[0].now).0, cfg, pre[1..], last);
    }
  }

  /** Enable the realm and the user, give the realm a key, disable one client and
      enable another. */
  function Preparation(ids: Identities, r: Id, u: Id, rival: Id, owner: Id, now: Time): seq<Step>
    requires r in ids.realms && owner in ids.clients
  {
    [Step(RequestAdminister(UpdateRealm(r, ids.realms[r].(enabled := true))), now),
     Step(RequestEnsureKey(r), now),
     Step(RequestAdminister(UpdateUser(u, true)), now),
     Step(RequestAdminister(UpdateClient(rival, ids.clients[owner].(enabled := false))), now),
     Step(RequestAdminister(UpdateClient(owner, ids.clients[owner].(enabled := true))), now)]
  }

  /** The identities after each change. */
  function RealmEnabled(ids: Identities, r: Id): Identities
    requires r in ids.realms
  {
    ids.(realms := ids.realms[r := ids.realms[r].(enabled := true)])
  }

  function UserEnabled(ids: Identities, u: Id): Identities
    requires u in ids.users
  {
    ids.(users := ids.users[u := ids.users[u].(enabled := true)])
  }

  function ClientSet(ids: Identities, c: Id, row: Client): Identities {
    if c in ids.clients
    then ids.(clients := ids.clients[c := row.(realm := ids.clients[c].realm, clientId := ids.clients[c].clientId)])
    else ids
  }

  function Prepared(ids: Identities, r: Id, u: Id, rival: Id, owner: Id): Identities
    requires r in ids.realms && u in ids.users && owner in ids.clients
  {
    ClientSet(ClientSet(UserEnabled(RealmEnabled(ids, r), u), rival,
                        ids.clients[owner].(enabled := false)),
              owner, ids.clients[owner].(enabled := true))
  }

  lemma ChangeApplied(db: Db, cfg: Config, change: Change, now: Time)
    ensures var after := Apply(db, cfg, RequestAdminister(change), now).0;
            && after == db.(ids := after.ids, supply := after.supply)
            && after.ids == (if Verdict(db.ids, change) == Done then Changed(db.ids, change, db.supply) else db.ids)
  {
    hide Verdict, Changed;
    ApplyChange(db, cfg, change, now);
    hide Apply;
  }

  lemma KeyApplied(db: Db, cfg: Config, r: Id, now: Time)
    ensures Apply(db, cfg, RequestEnsureKey(r), now) == EnsureKey(db, r)
  {
    hide EnsureKey;
  }

  /** The preparation depends on identities, keys and supply only, and leaves the
      sessions alone. */
  lemma PreparationRun(db: Db, cfg: Config, r: Id, u: Id, rival: Id, owner: Id, now: Time)
    requires r in db.ids.realms && u in db.ids.users && owner in db.ids.clients
    ensures var after := Run(db, cfg, Preparation(db.ids, r, u, rival, owner, now));
            && after.sessions == db.sessions
            && after.ids == Prepared(db.ids, r, u, rival, owner)
            && after.keys == EnsureKey(db.(ids := RealmEnabled(db.ids, r), supply := db.supply + 1), r).0.keys
  {
    hide Apply, Run, EnsureKey;
    var steps := Preparation(db.ids, r, u, rival, owner, now);
    var d1 := Apply(db, cfg, steps[0].request, now).0;
    var d2 := Apply(d1, cfg, steps[1].request, now).0;
    var d3 := Apply(d2, cfg, steps[2].request, now).0;
    var d4 := Apply(d3, cfg, steps[3].request, now).0;
    var d5 := Apply(d4, cfg, steps[4].request, now).0;
    FiveStepRun(db, cfg, steps);
    FirstChange(db, cfg, r, db.ids.realms[r].(enabled := true), now);
    KeyApplied(d1, cfg, r, now);
    KeyFrame(d1, r);
    ChangeApplied(d2, cfg, UpdateUser(u, true), now);
    ChangeApplied(d3, cfg, UpdateClient(rival, db.ids.clients[owner].(enabled := false)), now);
    ChangeApplied(d4, cfg, UpdateClient(owner, db.ids.clients[owner].(enabled := true)), now);
    assert d5 == Run(db, cfg, steps);
  }

  lemma FirstChange(db: Db, cfg: Config, r: Id, row: Realm, now: Time)
    requires r in db.ids.realms && row == db.ids.realms[r].(enabled := true)
    ensures Apply(db, cfg, RequestAdminister(UpdateRealm(r, row)), now).0
            == db.(ids := RealmEnabled(db.ids, r), supply := db.supply + 1)
  {
    ApplyChange(db, cfg, UpdateRealm(r, row), now);
    hide Apply;
  }

  lemma KeyFrame(db: Db, r: Id)
    ensures var after := EnsureKey(db, r).0; after == db.(keys := after.keys, supply := after.supply)
  {
    hide EnsureKey, KeyForward;
  }

  lemma FiveStepRun(db: Db, cfg: Config, s: seq<Step>)
    requires |s| == 5
    ensures Run(db, cfg, s) ==
      Apply(Apply(Apply(Apply(Apply(db, cfg, s[0].request, s[0].now).0, cfg, s[1].request, s[1].now).0,
                              cfg, s[2].request, s[2].now).0, cfg, s[3].request, s[3].now).0,
            cfg, s[4].request, s[4].now).0
  {
    FiveSteps(db, cfg, s);
  }

  // ---------------------------------------------------------------- a logout that tells owners apart

  /** An ID token of a session under a key. */
  function HintFor(ids: Identities, keys: map<Id, Key>, k: Id, s: Id, row: UserSession, owner: Id): Jwt
    requires k in keys && row.realm in ids.realms && owner in ids.clients
  {
    Jwt(k, true, keys[k].publicPart,
        Claims(ids.realms[row.realm].issuer, row.user, ids.clients[owner].clientId, ids.clients[owner].clientId,
               0, 0, Floor(row.authTime), 0, ID, s, [], None, None))
  }

  /** In the prepared database a hint works exactly if the session is unexpired and
      owned by the enabled client. */
  lemma HintTells(db: Db, ids: Identities, keys: map<Id, Key>, k: Id, s: Id, row: UserSession, rival: Id, owner: Id,
                  now: Time)
    requires row.realm in ids.realms && row.user in ids.users && owner in ids.clients
    requires ids.users[row.user].realm == row.realm && ids.clients[owner].realm == row.realm
    requires db.ids == Prepared(ids, row.realm, row.user, rival, owner) && db.keys == keys
    requires k in keys && IsActiveKey(keys[k], row.realm)
    requires s in db.sessions ==> db.sessions[s].client == (if db.sessions[s] == row then owner else rival)
    requires s in db.sessions && db.sessions[s] == row ==> !Expired(row, now)
    requires s in db.sessions && db.sessions[s] != row ==> rival != owner
    ensures HintVerifies(db, HintFor(ids, keys, k, s, row, owner), row.realm, ids.clients[owner].clientId, now)
            <==> s in db.sessions && db.sessions[s] == row
  {
    assert EnabledClient(db, row.realm, owner);
    if s in db.sessions && db.sessions[s] != row {
      assert rival in db.ids.clients ==> !db.ids.clients[rival].enabled;
    }
  }

  /** The same key is active in the realm after the preparation of either database. */
  lemma KeyIsThere(db: Db, r: Id, now: Time) returns (k: Id)
    requires Inv(db, now) && r in db.ids.realms
    ensures var z := db.(ids := RealmEnabled(db.ids, r), supply := db.supply + 1);
            k in EnsureKey(z, r).0.keys && IsActiveKey(EnsureKey(z, r).0.keys[k], r)
  {
    var z := db.(ids := RealmEnabled(db.ids, r), supply := db.supply + 1);
    AtMostOneActive(db, r, now);
    hide Inv, OnlyKeys;
    if |ActiveKeys(z.keys, r)| == 1 {
      k :| k in ActiveKeys(z.keys, r);
    } else {
      k := z.supply;
    }
  }

  lemma OwnersNamed(db: Db, s: Id, now: Time)
    requires Inv(db, now) && s in db.sessions
    ensures SessionRefs(db.ids, db.sessions[s])
  {
    hide IdentityRefs, KeyTable, BucketTable, AuthTable, MailTable, EventTable, CodeTable, TokenTable, LinkTable,
         FamiliesOk, RowsOk, KeysOk, Drawn;
  }

  /** The last reply of a probe. */
  lemma ProbeReplies(db: Db, cfg: Config, ids: Identities, keys: map<Id, Key>, k: Id, s: Id, row: UserSession,
                     rival: Id, owner: Id, now: Time)
    requires db.ids == ids && SessionRefs(ids, row) && row.client == owner
    requires k in keys && IsActiveKey(keys[k], row.realm)
    requires keys == EnsureKey(db.(ids := RealmEnabled(ids, row.realm), supply := db.supply + 1), row.realm).0.keys
    requires s in db.sessions ==> db.sessions[s].client == (if db.sessions[s] == row then owner else rival)
    requires s in db.sessions && db.sessions[s] == row ==> !Expired(row, now)
    requires s in db.sessions && db.sessions[s] != row ==> rival != owner
    ensures var raw := HintFor(ids, keys, k, s, row, owner);
            var last := RequestHintLogout(row.realm, raw, Some(ids.clients[owner].clientId));
            Apply(Run(db, cfg, Preparation(ids, row.realm, row.user, rival, owner, now)), cfg, last, now).1 == Done
            <==> s in db.sessions && db.sessions[s] == row
  {
    hide Run, EnsureKey, Prepared, HintFor, HintVerifies, IsActiveKey, Expired, Preparation;
    var after := Run(db, cfg, Preparation(ids, row.realm, row.user, rival, owner, now));
    PreparationRun(db, cfg, row.realm, row.user, rival, owner, now);
    HintTells(after, ids, keys, k, s, row, rival, owner, now);
    PreparedRealm(ids, row.realm, row.user, rival, owner);
    HintApplied(after, cfg, row.realm, HintFor(ids, keys, k, s, row, owner), ids.clients[owner].clientId, now);
    hide Apply;
  }

  lemma PreparedRealm(ids: Identities, r: Id, u: Id, rival: Id, owner: Id)
    requires r in ids.realms && u in ids.users && owner in ids.clients
    ensures r in Prepared(ids, r, u, rival, owner).realms && Prepared(ids, r, u, rival, owner).realms[r].enabled
  {}

  lemma HintApplied(db: Db, cfg: Config, r: Id, raw: Jwt, audience: string, now: Time)
    requires r in db.ids.realms && db.ids.realms[r].enabled
    ensures Apply(db, cfg, RequestHintLogout(r, raw, Some(audience)), now).1 == Done
            <==> HintVerifies(db, raw, r, audience, now)
  {
    hide HintVerifies, Revoke, ClientNamed;
  }

  /** A different owner is seen: enable the realm, the user and the one owner, disable
      the other, and log out with an ID token of the session. */
  lemma DifferenceIsSeen(x: Db, y: Db, cfg: Config, s: Id, owner: Id, now: Time) returns (later: seq<Step>)
    requires OwnerDiffers(x, y, s, owner, now) && Inv(x, now)
    requires y.ids == x.ids && y.keys == x.keys && y.supply == x.supply
    ensures NoClientDeletion(later) && Ordered(later, now)
    ensures Observed(x, cfg, later) != Observed(y, cfg, later)
  {
    hide Inv, Apply, Run, Observed, EnsureKey, Expired, HintFor, Prepared;
    var row := x.sessions[s];
    var rival := if s in y.sessions then y.sessions[s].client else owner;
    OwnersNamed(x, s, now);
    var k := KeyIsThere(x, row.realm, now);
    var keys := EnsureKey(x.(ids := RealmEnabled(x.ids, row.realm), supply := x.supply + 1), row.realm).0.keys;
    SameKeys(x, y, row.realm);
    var pre := Preparation(x.ids, row.realm, row.user, rival, owner, now);
    var last := Step(RequestHintLogout(row.realm, HintFor(x.ids, keys, k, s, row, owner),
                                       Some(x.ids.clients[owner].clientId)), now);
    ProbeReplies(x, cfg, x.ids, keys, k, s, row, rival, owner, now);
    ProbeReplies(y, cfg, x.ids, keys, k, s, row, rival, owner, now);
    ObservedSnoc(x, cfg, pre, last);
    ObservedSnoc(y, cfg, pre, last);
    later := pre + [last];
    AllAtOnce(later, now);
    assert Observed(x, cfg, later)[|pre|] != Observed(y, cfg, later)[|pre|];
  }

  lemma {:induction false} AllAtOnce(steps: seq<Step>, now: Time)
    requires forall i | 0 <= i < |steps| :: steps[i].now == now
    ensures Ordered(steps, now)
    decreases |steps|
  {
    if steps != [] { AllAtOnce(steps[1..], now); }
  }

  lemma SameKeys(x: Db, y: Db, r: Id)
    requires r in x.ids.realms && y.ids == x.ids && y.keys == x.keys && y.supply == x.supply
    ensures EnsureKey(y.(ids := RealmEnabled(y.ids, r), supply := y.supply + 1), r).0.keys
            == EnsureKey(x.(ids := RealmEnabled(x.ids, r), supply := x.supply + 1), r).0.keys
  {
    hide EnsureKey, ActiveKeys;
    EnsuredKeys(x.(ids := RealmEnabled(x.ids, r), supply := x.supply + 1), r);
    EnsuredKeys(y.(ids := RealmEnabled(y.ids, r), supply := y.supply + 1), r);
  }

  lemma EnsuredKeys(db: Db, r: Id)
    requires r in db.ids.realms
    ensures EnsureKey(db, r).0.keys
            == (if |ActiveKeys(db.keys, r)| >= 1 then db.keys
                else db.keys[db.supply := Key(r, true, db.supply + 1, true, None)])
  {
    hide ActiveKeys, OnlyKeys, KeyForward;
  }

  // ---------------------------------------------------------------- exactly when a deletion sees a cleanup

  /** Whatever is asked later, client deletions apart, the replies do not tell the two
      databases apart. */
  ghost predicate Alike(x: Db, y: Db, cfg: Config, now: Time) {
    forall later: seq<Step> :: Ordered(later, now) && NoClientDeletion(later) ==>
      Observed(y, cfg, later) == Observed(x, cfg, later)
  }

  lemma DeletedSound(db: Db, cfg: Config, c: Id, pick: Pick, now: Time)
    requires Inv(db, now) && BucketsOk(db.buckets, cfg, now)
    ensures Inv(Deleted(db, c, pick), now) && BucketsOk(Deleted(db, c, pick).buckets, cfg, now)
  {
    hide Inv, BucketsOk, DeleteClient, Rehomes, Owners;
    OwnersFit(db, c, pick);
    DeleteClientKeepsInv(db, c, Owners(db, c, pick), now);
    DeletedRows(db, c, pick);
  }

  lemma SameNamesAfter(a: Db, b: Db, c: Id, pick: Pick, pick': Pick, now: Time)
    requires Sim(a, b, now)
    ensures var x, y := Deleted(a, c, pick), Deleted(b, c, pick');
            y.ids == x.ids && y.keys == x.keys && y.supply == x.supply
  {
    SameIdentities(a, b, now);
    hide Sim, Deleted;
    DeletedRows(a, c, pick);
    DeletedRows(b, c, pick');
  }

  lemma KeepsInv(db: Db, c: Id, pick: Pick, now: Time)
    requires Inv(db, now)
    ensures Inv(Deleted(db, c, pick), now)
  {
    hide Inv, DeleteClient, Rehomes, Owners;
    OwnersFit(db, c, pick);
    DeleteClientKeepsInv(db, c, Owners(db, c, pick), now);
  }

  lemma SameResultIsAlike(a: Db, b: Db, cfg: Config, c: Id, pick: Pick, pick': Pick, now: Time)
    requires Sim(a, b, now) && Inv(a, now) && BucketsOk(a.buckets, cfg, now) && cfg.Positive()
    requires SameResult(a, b, c, pick, pick', now)
    ensures Alike(Deleted(a, c, pick), Deleted(b, c, pick'), cfg, now)
  {
    hide Sim, Inv, BucketsOk, SameResult, Deleted, Observed, NoClientDeletion, Ordered;
    DeletionKeepsSim(a, b, c, pick, pick', now);
    DeletedSound(a, cfg, c, pick, now);
    forall later | Ordered(later, now) && NoClientDeletion(later)
      ensures Observed(Deleted(b, c, pick'), cfg, later) == Observed(Deleted(a, c, pick), cfg, later)
    {
      SimilarForever(Deleted(a, c, pick), Deleted(b, c, pick'), cfg, later, now);
    }
  }

  /** The replies after the deletion of a client are the same on a cleaned and on an
      uncleaned database, for every later run, if and only if the choices made give each
      unexpired session the same new owner: an owner can always be told by a reply. */
  lemma AlikeIff(a: Db, b: Db, cfg: Config, c: Id, pick: Pick, pick': Pick, now: Time)
    requires Sim(a, b, now) && Inv(a, now) && Inv(b, now) && BucketsOk(a.buckets, cfg, now) && cfg.Positive()
    ensures Alike(Deleted(a, c, pick), Deleted(b, c, pick'), cfg, now) <==> SameResult(a, b, c, pick, pick', now)
  {
    hide Sim, Inv, BucketsOk, SameResult, Deleted, Observed, OwnerDiffers;
    if SameResult(a, b, c, pick, pick', now) {
      SameResultIsAlike(a, b, cfg, c, pick, pick', now);
    } else {
      var s, owner := DifferenceFound(a, b, c, pick, pick', now);
      SameNamesAfter(a, b, c, pick, pick', now);
      var x, y := Deleted(a, c, pick), Deleted(b, c, pick');
      KeepsInv(a, c, pick, now);
      KeepsInv(b, c, pick', now);
      var later: seq<Step>;
      if OwnerDiffers(x, y, s, owner, now) {
        later := DifferenceIsSeen(x, y, cfg, s, owner, now);
      } else {
        later := DifferenceIsSeen(y, x, cfg, s, owner, now);
      }
      assert Observed(y, cfg, later) != Observed(x, cfg, later);
    }
  }

  /** The same, whatever row the database chooses among those that the query matches. */
  ghost predicate Unseen(a: Db, b: Db, cfg: Config, c: Id, now: Time) {
    forall pick: Pick :: Alike(Deleted(a, c, pick), Deleted(b, c, pick), cfg, now)
  }

  /** A cleaned and an uncleaned database give the same replies after the deletion of a
      client, for every choice of a row among those that match and every later run, if
      and only if for each unexpired session of the client the matching rows are the
      same in both, or all of them belong to one client. */
  lemma UnseenIff(a: Db, b: Db, cfg: Config, c: Id, now: Time)
    requires Sim(a, b, now) && Inv(a, now) && Inv(b, now) && BucketsOk(a.buckets, cfg, now) && cfg.Positive()
    ensures Unseen(a, b, cfg, c, now) <==> OwnersAgree(a, b, c, now)
  {
    hide Sim, Inv, BucketsOk, Alike, SameResult, OwnersAgree, Deleted;
    forall pick: Pick
      ensures Alike(Deleted(a, c, pick), Deleted(b, c, pick), cfg, now) <==> SameResult(a, b, c, pick, pick, now)
    {
      AlikeIff(a, b, cfg, c, pick, pick, now);
    }
    RowChoicesAgreeIff(a, b, c, now);
  }

  /** Whatever the choice on either database depends on. */
  ghost predicate UnseenByAny(a: Db, b: Db, cfg: Config, c: Id, now: Time) {
    forall pick: Pick, pick': Pick :: Alike(Deleted(a, c, pick), Deleted(b, c, pick'), cfg, now)
  }

  /** If nothing is known about the choice, not even that the same rows give the same
      one, the replies are the same if and only if no unexpired session of the client
      has more than one possible owner, and it has the same in both. */
  lemma UnseenByAnyIff(a: Db, b: Db, cfg: Config, c: Id, now: Time)
    requires Sim(a, b, now) && Inv(a, now) && Inv(b, now) && BucketsOk(a.buckets, cfg, now) && cfg.Positive()
    ensures UnseenByAny(a, b, cfg, c, now) <==> OwnersCertain(a, b, c, now)
  {
    hide Sim, Inv, BucketsOk, Alike, SameResult, OwnersCertain, Deleted;
    forall pick: Pick, pick': Pick
      ensures Alike(Deleted(a, c, pick), Deleted(b, c, pick'), cfg, now) <==> SameResult(a, b, c, pick, pick', now)
    {
      AlikeIff(a, b, cfg, c, pick, pick', now);
    }
    AnyChoicesAgreeIff(a, b, c, now);
  }

  /** Some choice on the one database is followed by the same replies as this choice on
      the other. */
  ghost predicate Possible(a: Db, b: Db, cfg: Config, c: Id, pick: Pick, now: Time) {
    && (exists pick': Pick :: Alike(Deleted(a, c, pick), Deleted(b, c, pick'), cfg, now))
    && (exists pick': Pick :: Alike(Deleted(a, c, pick'), Deleted(b, c, pick), cfg, now))
  }

  lemma PossibleIff(a: Db, b: Db, cfg: Config, c: Id, pick: Pick, now: Time)
    requires Sim(a, b, now) && Inv(a, now) && Inv(b, now) && BucketsOk(a.buckets, cfg, now) && cfg.Positive()
    ensures Possible(a, b, cfg, c, pick, now) <==> Matched(a, b, c, pick, now) && MatchedBack(a, b, c, pick, now)
  {
    hide Sim, Inv, BucketsOk, Alike, SameResult, Deleted;
    forall pick': Pick
      ensures Alike(Deleted(a, c, pick), Deleted(b, c, pick'), cfg, now) <==> SameResult(a, b, c, pick, pick', now)
      ensures Alike(Deleted(a, c, pick'), Deleted(b, c, pick), cfg, now) <==> SameResult(a, b, c, pick', pick, now)
    {
      AlikeIff(a, b, cfg, c, pick, pick', now);
      AlikeIff(a, b, cfg, c, pick', pick, now);
    }
  }

  /** What may follow the deletion is the same on both databases, each choice on one
      matched by a choice on the other with the same replies to every later run, if and
      only if each unexpired session has the same possible owners in both. */
  lemma SamePossibilitiesIff(a: Db, b: Db, cfg: Config, c: Id, now: Time)
    requires Sim(a, b, now) && Inv(a, now) && Inv(b, now) && BucketsOk(a.buckets, cfg, now) && cfg.Positive()
    ensures (forall pick: Pick :: Possible(a, b, cfg, c, pick, now)) <==> SameCandidates(a, b, c, now)
  {
    hide Sim, Inv, BucketsOk, Possible, Matched, MatchedBack, SameCandidates;
    forall pick: Pick
      ensures Possible(a, b, cfg, c, pick, now) <==> Matched(a, b, c, pick, now) && MatchedBack(a, b, c, pick, now)
    {
      PossibleIff(a, b, cfg, c, pick, now);
    }
    OutcomesCoincideIff(a, b, c, now);
  }
}

/** Requests of the administrator, and those on keys and throttle buckets, keep
    the invariant. */
module IdentitySteps {
  import opened Prelude
  import opened Tables
  import opened Protocol
  import opened Invariants
  import opened RealmRemoval
  import opened Steps

  // ---------------------------------------------------------------- signing keys

  /** Existing keys keep everything but their activity, and a new key is fresh. */
  ghost predicate KeysKept(a: map<Id, Key>, b: map<Id, Key>) {
    forall k | k in a ::
      && k in b && b[k].realm == a[k].realm && b[k].rs256 == a[k].rs256
      && b[k].publicPart == a[k].publicPart
  }

  lemma KeysAnchor(db: Db, keys: map<Id, Key>, now: Time)
    requires RowsOk(db, now) && KeysKept(db.keys, keys)
    ensures AllAnchored(db, db.(keys := keys))
  {
    forall t | t in db.tokens ensures Anchored(db, db.(keys := keys), db.tokens[t]) {
      assert RecordOf(db.ids, db.keys, db.sessions, t, db.tokens[t]);
    }
  }

  lemma KeysKeepInv(db: Db, keys: map<Id, Key>, now: Time)
    requires Inv(db, now) && KeysKept(db.keys, keys) && KeysOk(keys)
    requires KeyTable(db.ids, keys) && Below(keys, db.supply)
    ensures Inv(db.(keys := keys), now)
  {
    hide IdentityRefs, KeyTable, BucketTable, AuthTable, MailTable, EventTable, SessionTable, CodeTable,
         TokenTable, FamiliesOk, Recorded, CreatedBy, TokensBounded, KeysOk, KeysKept, LinkTable;
    KeysAnchor(db, keys, now);
    NextIsFresh(db, now);
    SubsetSettles(db.tokens, db.tokens);
    SettlingKeepsInv(db, db.(keys := keys), now);
  }

  /** A realm without an active key has no key at all, so its first one is alone. */
  lemma FirstKeyKeepsOk(keys: map<Id, Key>, k: Id, row: Key)
    requires KeysOk(keys) && k !in keys && row.rs256 && row.active && row.deactivatedAt.None?
    requires forall x | x in keys && keys[x].realm == row.realm :: !keys[x].active
    ensures KeysOk(keys[k := row])
  {
    var after := keys[k := row];
    assert ActiveKeys(after, row.realm) == {k};
    forall x | x in keys && keys[x].realm != row.realm
      ensures |ActiveKeys(after, keys[x].realm)| == 1
    {
      assert ActiveKeys(after, keys[x].realm) == ActiveKeys(keys, keys[x].realm);
    }
  }

  lemma NoActiveKey(keys: map<Id, Key>, realm: Id)
    requires KeysOk(keys) && |ActiveKeys(keys, realm)| == 0
    ensures forall x | x in keys :: keys[x].realm != realm
  {
    forall x | x in keys ensures keys[x].realm != realm {
      assert |ActiveKeys(keys, keys[x].realm)| == 1;
    }
  }

  lemma KeyTablesHold(db: Db, now: Time)
    requires Inv(db, now)
    ensures KeysOk(db.keys) && KeyTable(db.ids, db.keys) && Below(db.keys, db.supply)
  {
    hide IdentityRefs, KeyTable, BucketTable, AuthTable, MailTable, EventTable, SessionTable, CodeTable,
         TokenTable, LinkTable, FamiliesOk, RowsOk, KeysOk;
  }

  lemma EnsureKeyKeepsInv(db: Db, realm: Id, now: Time)
    requires Inv(db, now)
    ensures Inv(EnsureKey(db, realm).0, now)
  {
    hide Inv, KeysOk, ActiveKeys;
    if realm in db.ids.realms && |ActiveKeys(db.keys, realm)| == 0 {
      KeyTablesHold(db, now);
      NoActiveKey(db.keys, realm);
      var row := Key(realm, true, db.supply + 1, true, None);
      FirstKeyKeepsOk(db.keys, db.supply, row);
      DrawKeepsInv(db, 2, now);
      KeysKeepInv(Draw(db, 2), db.keys[db.supply := row], now);
    }
  }

  lemma RotateKeepsOk(db: Db, realm: Id, now: Time)
    requires KeysOk(db.keys) && Below(db.keys, db.supply)
    ensures KeysOk(Deactivated(db.keys, realm, now)[db.supply := Key(realm, true, db.supply + 1, true, None)])
  {
    hide KeyForward;
    var off := Deactivated(db.keys, realm, now);
    var after := off[db.supply := Key(realm, true, db.supply + 1, true, None)];
    forall x | x in after ensures |ActiveKeys(after, after[x].realm)| == 1 {
      if after[x].realm == realm {
        OneAfterRotation(db, realm, now);
      } else {
        assert |ActiveKeys(db.keys, db.keys[x].realm)| == 1;
        OthersAfterRotation(db, realm, db.keys[x].realm, now);
      }
    }
  }

  lemma OneAfterRotation(db: Db, realm: Id, now: Time)
    ensures ActiveKeys(Deactivated(db.keys, realm, now)[db.supply := Key(realm, true, db.supply + 1, true, None)],
                       realm)
            == {db.supply}
  {}

  lemma OthersAfterRotation(db: Db, realm: Id, other: Id, now: Time)
    requires other != realm && Below(db.keys, db.supply)
    ensures ActiveKeys(Deactivated(db.keys, realm, now)[db.supply := Key(realm, true, db.supply + 1, true, None)],
                       other)
            == ActiveKeys(db.keys, other)
  {}

  lemma DeactivatedKept(db: Db, realm: Id, now: Time, row: Key)
    requires KeyTable(db.ids, db.keys) && Below(db.keys, db.supply) && row.realm in db.ids.realms
    ensures var keys := Deactivated(db.keys, realm, now)[db.supply := row];
            KeysKept(db.keys, keys) && KeyTable(db.ids, keys) && Below(keys, db.supply + 1)
  {}

  lemma RotateKeyKeepsInv(db: Db, realm: Id, now: Time)
    requires Inv(db, now)
    ensures Inv(RotateKey(db, realm, now).0, now)
  {
    hide Inv, KeysOk, KeysKept, KeyTable, Deactivated;
    if realm in db.ids.realms && db.ids.realms[realm].enabled {
      KeyTablesHold(db, now);
      var row := Key(realm, true, db.supply + 1, true, None);
      RotateKeepsOk(db, realm, now);
      DeactivatedKept(db, realm, now, row);
      DrawKeepsInv(db, 2, now);
      KeysKeepInv(Draw(db, 2), Deactivated(db.keys, realm, now)[db.supply := row], now);
    }
  }

  // ---------------------------------------------------------------- throttle buckets

  lemma BucketsKeepInv(db: Db, buckets: map<BucketKey, Bucket>, now: Time)
    requires Inv(db, now) && BucketTable(db.ids, buckets)
    ensures Inv(db.(buckets := buckets), now)
  {
    hide IdentityRefs, KeyTable, BucketTable, AuthTable, MailTable, EventTable, SessionTable, CodeTable,
         TokenTable, LinkTable, FamiliesOk, Recorded, CreatedBy, TokensBounded, SessionsBounded, KeysOk;
  }

  lemma CountFailureKeepsInv(db: Db, cfg: Config, b: BucketKey, now: Time)
    requires Inv(db, now)
    ensures Inv(CountFailure(db, cfg, b, now).0, now)
  {
    assert BucketTable(db.ids, db.buckets);
    hide Inv;
    if b.realm in db.ids.realms {
      BucketsKeepInv(db, CountFailure(db, cfg, b, now).0.buckets, now);
    }
  }

  lemma ClearFailuresKeepsInv(db: Db, b: BucketKey, now: Time)
    requires Inv(db, now)
    ensures Inv(ClearFailures(db, b).0, now)
  {
    assert BucketTable(db.ids, db.buckets);
    hide Inv;
    BucketsKeepInv(db, db.buckets - {b}, now);
  }

  // ---------------------------------------------------------------- identities

  /** Identities are added or changed without moving to another realm, and keep
      the names that tokens carry. */
  ghost predicate IdentitiesGrow(a: Identities, b: Identities) {
    && (forall x | x in a.realms :: x in b.realms && b.realms[x].issuer == a.realms[x].issuer)
    && (forall x | x in a.clients ::
          x in b.clients && b.clients[x].realm == a.clients[x].realm
          && b.clients[x].clientId == a.clients[x].clientId)
    && (forall x | x in a.users :: x in b.users && b.users[x].realm == a.users[x].realm)
    && (forall x | x in a.flows :: x in b.flows && b.flows[x].realm == a.flows[x].realm)
  }

  lemma IdentitiesAnchor(db: Db, ids: Identities, now: Time)
    requires RowsOk(db, now) && IdentitiesGrow(db.ids, ids)
    ensures AllAnchored(db, db.(ids := ids))
  {
    forall t | t in db.tokens ensures Anchored(db, db.(ids := ids), db.tokens[t]) {
      assert RecordOf(db.ids, db.keys, db.sessions, t, db.tokens[t]);
    }
  }

  /** No row refers to a realm that does not exist. */
  lemma MissingRealmIsRowFree(db: Db, r: Id)
    requires Integrity(db) && r !in db.ids.realms
    ensures RowFree(db, r)
  {
    hide IdentityRefs, KeyTable, LinkTable, ClientOf, UserOf, FlowOf, SessionOf;
  }

  lemma IdentitiesKeepRefs(db: Db, ids: Identities, now: Time)
    requires Inv(db, now) && IdentitiesGrow(db.ids, ids) && IdentityRefs(ids)
    ensures Integrity(db.(ids := ids))
  {
    assert KeyTable(ids, db.keys) && db.supply !in db.ids.realms;
    hide Integrity, FamiliesOk, RowsOk, KeysOk, IdentityRefs;
    MissingRealmIsRowFree(db, db.supply);
    OutsideSound(db, ids, db.keys, db.supply);
  }

  lemma IdentitiesKeepInv(db: Db, ids: Identities, now: Time)
    requires Inv(db, now) && IdentitiesGrow(db.ids, ids) && IdentityRefs(ids)
    requires Below(ids.realms, db.supply) && Below(ids.clients, db.supply) && Below(ids.users, db.supply)
    ensures Inv(db.(ids := ids), now)
  {
    hide Integrity, FamiliesOk, Recorded, CreatedBy, TokensBounded, KeysOk, IdentitiesGrow, IdentityRefs, LinkTable;
    IdentitiesKeepRefs(db, ids, now);
    IdentitiesAnchor(db, ids, now);
    NextIsFresh(db, now);
    SubsetSettles(db.tokens, db.tokens);
    SettlingKeepsInv(db, db.(ids := ids), now);
  }

  /** The identities after a change are still consistent and keep every name. */
  ghost predicate ChangeSound(a: Identities, b: Identities, next: Id) {
    && IdentitiesGrow(a, b) && IdentityRefs(b)
    && Below(b.realms, next + 1) && Below(b.clients, next + 1) && Below(b.users, next + 1)
  }

  lemma CreationSound(ids: Identities, change: Change, next: Id)
    requires IdentityRefs(ids) && Below(ids.realms, next) && Below(ids.clients, next) && Below(ids.users, next)
    requires Verdict(ids, change) == Done
    requires change.CreateRealm? || change.CreateClient? || change.CreateUser?
    ensures ChangeSound(ids, Changed(ids, change, next), next)
  {
    hide ClientIdTaken;
  }

  lemma UpdateSound(ids: Identities, change: Change, next: Id)
    requires IdentityRefs(ids) && Below(ids.realms, next) && Below(ids.clients, next) && Below(ids.users, next)
    requires Verdict(ids, change) == Done
    requires change.UpdateRealm? || change.UpdateClient? || change.UpdateUser?
    ensures ChangeSound(ids, Changed(ids, change, next), next)
  {
    hide ClientIdTaken, FlowRefs, PeopleRefs, ResetLinks;
    var after := Changed(ids, change, next);
    assert after.realms.Keys == ids.realms.Keys;
    UpdatedRefs(ids, change, next);
  }

  lemma UpdatedRefs(ids: Identities, change: Change, next: Id)
    requires IdentityRefs(ids) && Verdict(ids, change) == Done
    requires change.UpdateRealm? || change.UpdateClient? || change.UpdateUser?
    ensures var after := Changed(ids, change, next);
            && ResetLinks(after.realms, after.flows)
            && PeopleRefs(ids.realms.Keys, after.clients, after.users, after.credentials)
            && FlowRefs(ids.realms.Keys, after.flows, after.executions)
  {
    hide ClientIdTaken;
  }

  lemma IdentitiesHold(db: Db, now: Time)
    requires Inv(db, now)
    ensures IdentityRefs(db.ids) && Below(db.ids.realms, db.supply) && Below(db.ids.clients, db.supply)
    ensures Below(db.ids.users, db.supply)
  {
    hide IdentityRefs, KeyTable, BucketTable, AuthTable, MailTable, EventTable, SessionTable, CodeTable, TokenTable,
         LinkTable, FamiliesOk, RowsOk, KeysOk, Below;
  }

  lemma AdministerKeepsInv(db: Db, change: Change, now: Time)
    requires Inv(db, now)
    ensures Inv(Administer(db, change).0, now)
  {
    hide Inv, IdentityRefs, Below, Changed, Verdict, IdentitiesGrow;
    if Verdict(db.ids, change) == Done {
      IdentitiesHold(db, now);
      if change.CreateRealm? || change.CreateClient? || change.CreateUser? {
        CreationSound(db.ids, change, db.supply);
      } else {
        UpdateSound(db.ids, change, db.supply);
      }
      DrawKeepsInv(db, 1, now);
      IdentitiesKeepInv(Draw(db, 1), Changed(db.ids, change, db.supply), now);
    }
  }
}

/** Deletion of clients and realms through the admin interface. */
module AdminManagement {
  import opened Prelude
  import opened Tables
  import opened Invariants
  import opened Removal
  import opened RealmRemoval
  import opened UnitOfWork

  lemma OneRehomed(db: Db, c: Id, owners: map<Id, Id>, todo: set<Id>, s: Id, other: Option<Id>)
    requires Rehoming(db, c, owners, todo) && s in todo
    requires other.Some? <==> SharedWithOther(db, s, c)
    requires other.Some? ==> NewOwner(db.tokens, db.codes, s, c, other.value)
    ensures Rehoming(db, c, if other.Some? then owners[s := other.value] else owners, todo - {s})
  {
    hide TokenOfOther, CodeOfOther, NewOwner;
  }

  /** Another client that uses session `s`, by a token or else by a code. */
  method OtherClient(db: Db, s: Id, c: Id) returns (other: Option<Id>)
    ensures other.Some? <==> SharedWithOther(db, s, c)
    ensures other.Some? ==> NewOwner(db.tokens, db.codes, s, c, other.value)
  {
    if TokenOfOther(db.tokens, s, c) {
      var t :| t in db.tokens && db.tokens[t].session == s && db.tokens[t].client != c;
      return Some(db.tokens[t].client);
    }
    if CodeOfOther(db.codes, s, c) {
      var x :| x in db.codes && db.codes[x].session == s && db.codes[x].client != c;
      return Some(db.codes[x].client);
    }
    return None;
  }

  /** The re-homing loop: sessions that other clients use move to one of them. */
  method RehomeSessions(session: Session, c: Id) returns (ghost owners: map<Id, Id>)
    requires Integrity(session.tables)
    modifies session
    ensures Rehomes(old(session.tables), c, owners)
    ensures session.tables == old(session.tables).(sessions := Rehomed(old(session.tables).sessions, owners))
    ensures Integrity(session.tables)
    ensures session.durable == old(session.durable) && old(session.trail) <= session.trail
    ensures SoundSince(session.trail, |old(session.trail)|)
  {
    hide Integrity, TokenOfOther, CodeOfOther, NewOwner;
    ghost var start := |session.trail|;
    ghost var base := session.tables;
    owners := map[];
    var owned := Owned(session.tables.sessions, c);
    assert Rehomed(base.sessions, owners) == base.sessions;
    while owned != {}
      invariant Rehoming(base, c, owners, owned)
      invariant session.tables == base.(sessions := Rehomed(base.sessions, owners))
      invariant Integrity(session.tables)
      invariant session.durable == old(session.durable) && old(session.trail) <= session.trail
      invariant SoundSince(session.trail, start)
      decreases owned
    {
      var s :| s in owned;
      var db := session.tables;
      var other := OtherClient(db, s, c);
      OneRehomed(base, c, owners, owned, s, other);
      owned := owned - {s};
      if other.Some? {
        var moved := db.sessions[s := db.sessions[s].(client := other.value)];
        owners := owners[s := other.value];
        assert moved == Rehomed(base.sessions, owners);
        RehomingSound(base, c, owners, owned);
        session.Execute(db.(sessions := moved));
      }
    }
    assert Rehomes(base, c, owners);
  }

  /** `delete_client`: nine ordered statements after the loop. The result is the
      plain filter, and every foreign key holds after each statement. */
  method DeleteClientRows(session: Session, c: Id) returns (ghost owners: map<Id, Id>)
    requires Integrity(session.tables) && FamiliesOk(session.tables.tokens)
    modifies session
    ensures Rehomes(old(session.tables), c, owners)
    ensures session.tables == DeleteClient(old(session.tables), c, owners)
    ensures session.durable == old(session.durable) && old(session.trail) <= session.trail
    ensures SoundSince(session.trail, |old(session.trail)|)
  {
    hide Integrity, FamiliesOk, Rehomes, DeleteClient, Rehomed, DeleteMails, ForgetClientEvents,
         ForgetSessionEvents, DeleteCodes, UnlinkReplaced, DeleteTokens, DeleteAuths, DeleteSessions,
         DeleteClientRow, CodeTable, TokenTable;
    ghost var base := session.tables;
    owners := RehomeSessions(session, c);
    ghost var at := session.tables;
    assert Integrity(at);
    EarlyStatementsSound(at, c);
    TokenStatementsSound(BeforeTokens(at, c), c);
    LateStatementsSound(at, c);
    LastStatementSound(at, c);
    session.Execute(DeleteMails(session.tables, c));
    session.Execute(ForgetClientEvents(session.tables, c));
    session.Execute(ForgetSessionEvents(session.tables, c));
    session.Execute(DeleteCodes(session.tables, c));
    session.Execute(UnlinkReplaced(session.tables, c));
    session.Execute(DeleteTokens(session.tables, c));
    session.Execute(DeleteAuths(session.tables, c));
    session.Execute(DeleteSessions(session.tables, c));
    session.Execute(DeleteClientRow(session.tables, c));
    StatementsFilter(base, c, owners);
  }

  /** `delete_realm`: sixteen ordered statements. The result is the plain filter,
      and every foreign key holds after each statement. */
  method DeleteRealmRows(session: Session, r: Id)
    requires Integrity(session.tables) && FamiliesOk(session.tables.tokens)
    modifies session
    ensures session.tables == DeleteRealm(old(session.tables), r)
    ensures session.durable == old(session.durable) && old(session.trail) <= session.trail
    ensures SoundSince(session.trail, |old(session.trail)|)
  {
    hide Integrity, FamiliesOk, DeleteRealm, LastRealmState, RealmMails, RealmEvents, RealmCodes,
         RealmLinks, RealmTokens, RealmAuths, RealmSessions, RealmBuckets;
    ghost var base := session.tables;
    EarlyRealmStatementsSound(base, r);
    LateRealmStatementsSound(base, r);
    session.Execute(RealmMails(session.tables, r));
    session.Execute(RealmEvents(session.tables, r));
    session.Execute(RealmCodes(session.tables, r));
    session.Execute(RealmLinks(session.tables, r));
    session.Execute(RealmTokens(session.tables, r));
    session.Execute(RealmAuths(session.tables, r));
    session.Execute(RealmSessions(session.tables, r));
    session.Execute(RealmBuckets(session.tables, r));
    assert session.tables == WithoutRows(base, r);
    DeleteRealmIdentities(session, base, r);
  }

  /** The statements from the credentials to the realm itself. */
  method DeleteRealmIdentities(session: Session, ghost base: Db, r: Id)
    requires Integrity(base) && FamiliesOk(base.tokens) && session.tables == WithoutRows(base, r)
    requires Integrity(session.tables) && RowFree(session.tables, r)
    modifies session
    ensures session.tables == DeleteRealm(base, r)
    ensures session.durable == old(session.durable) && old(session.trail) <= session.trail
    ensures SoundSince(session.trail, |old(session.trail)|)
  {
    hide Integrity, FamiliesOk, DeleteRealm, RowFree, PeopleFree, WithoutRows, RealmCredentials, RealmUsers,
         RealmClients, RealmFlowLink, RealmExecutions, RealmFlows, RealmRow;
    PeopleStatementsSound(session.tables, r);
    session.Execute(session.tables.(ids := RealmCredentials(session.tables.ids, r)));
    session.Execute(session.tables.(ids := RealmUsers(session.tables.ids, r)));
    session.Execute(session.tables.(ids := RealmClients(session.tables.ids, r)));
    assert session.tables == WithoutIdentities(base, r);
    AllRealmStatementsSound(base, r);
    FlowStatementsSound(session.tables, r);
    session.Execute(RealmKeys(session.tables, r));
    session.Execute(session.tables.(ids := RealmFlowLink(session.tables.ids, r)));
    session.Execute(session.tables.(ids := RealmExecutions(session.tables.ids, r)));
    session.Execute(session.tables.(ids := RealmFlows(session.tables.ids, r)));
    session.Execute(session.tables.(ids := RealmRow(session.tables.ids, r)));
    RealmStatementsFilter(base, r);
  }
}

/** What deleting a realm leaves, and the statements that do it. */
module RealmRemoval {
  import opened Prelude
  import opened Tables
  import opened Protocol
  import opened Invariants
  import opened Retention
  import opened Removal

  function AuthsOf(rows: map<Id, AuthSession>, r: Id): set<Id> { set x | x in rows && rows[x].realm == r }

  function MailsOf(rows: map<Id, ResetEmail>, r: Id): set<Id> { set x | x in rows && rows[x].realm == r }

  function EventsOf(rows: map<Id, Event>, r: Id): set<Id> { set x | x in rows && rows[x].realm == r }

  function SessionsOf(rows: map<Id, UserSession>, r: Id): set<Id> { set x | x in rows && rows[x].realm == r }

  function CodesOf(rows: map<Id, Code>, r: Id): set<Id> { set x | x in rows && rows[x].realm == r }

  function TokensOf(rows: map<Id, RefreshToken>, r: Id): set<Id> { set x | x in rows && rows[x].realm == r }

  function BucketsOf(rows: map<BucketKey, Bucket>, r: Id): set<BucketKey> { set x | x in rows && x.realm == r }

  function KeysOf(rows: map<Id, Key>, r: Id): set<Id> { set x | x in rows && rows[x].realm == r }

  function UsersOf(ids: Identities, r: Id): set<Id> { set x | x in ids.users && ids.users[x].realm == r }

  function ClientsOf(ids: Identities, r: Id): set<Id> { set x | x in ids.clients && ids.clients[x].realm == r }

  function FlowsOf(ids: Identities, r: Id): set<Id> { set x | x in ids.flows && ids.flows[x].realm == r }

  function CredentialsOf(ids: Identities, r: Id): set<Id> {
    set x | x in ids.credentials && ids.credentials[x].user in UsersOf(ids, r)
  }

  function ExecutionsOf(ids: Identities, r: Id): set<Id> {
    set x | x in ids.executions && ids.executions[x].flow in FlowsOf(ids, r)
  }

  /** The refined form: every row of the realm is gone, every other row untouched. */
  function DeleteRealm(db: Db, r: Id): Db {
    Db(Identities(db.ids.realms - {r}, db.ids.clients - ClientsOf(db.ids, r),
                  db.ids.users - UsersOf(db.ids, r), db.ids.credentials - CredentialsOf(db.ids, r),
                  db.ids.flows - FlowsOf(db.ids, r), db.ids.executions - ExecutionsOf(db.ids, r)),
       db.keys - KeysOf(db.keys, r), db.authSessions - AuthsOf(db.authSessions, r),
       db.resetEmails - MailsOf(db.resetEmails, r), db.sessions - SessionsOf(db.sessions, r),
       db.codes - CodesOf(db.codes, r), db.tokens - TokensOf(db.tokens, r),
       db.events - EventsOf(db.events, r), db.buckets - BucketsOf(db.buckets, r), db.supply)
  }

  // ---------------------------------------------------------------- the sixteen statements

  function RealmMails(db: Db, r: Id): Db { db.(resetEmails := db.resetEmails - MailsOf(db.resetEmails, r)) }

  function RealmEvents(db: Db, r: Id): Db { db.(events := db.events - EventsOf(db.events, r)) }

  function RealmCodes(db: Db, r: Id): Db { DropCodes(db, CodesOf(db.codes, r)) }

  function RealmLinks(db: Db, r: Id): Db {
    db.(tokens := UnlinkTokens(db.tokens, TokensOf(db.tokens, r)))
  }

  function RealmTokens(db: Db, r: Id): Db { db.(tokens := db.tokens - TokensOf(db.tokens, r)) }

  function RealmAuths(db: Db, r: Id): Db {
    db.(authSessions := db.authSessions - AuthsOf(db.authSessions, r))
  }

  function RealmSessions(db: Db, r: Id): Db { db.(sessions := db.sessions - SessionsOf(db.sessions, r)) }

  function RealmBuckets(db: Db, r: Id): Db { DropBuckets(db, BucketsOf(db.buckets, r)) }

  function RealmCredentials(ids: Identities, r: Id): Identities {
    ids.(credentials := ids.credentials - CredentialsOf(ids, r))
  }

  function RealmUsers(ids: Identities, r: Id): Identities { ids.(users := ids.users - UsersOf(ids, r)) }

  function RealmClients(ids: Identities, r: Id): Identities {
    ids.(clients := ids.clients - ClientsOf(ids, r))
  }

  function RealmKeys(db: Db, r: Id): Db { db.(keys := db.keys - KeysOf(db.keys, r)) }

  function RealmFlowLink(ids: Identities, r: Id): Identities {
    if r in ids.realms then ids.(realms := ids.realms[r := ids.realms[r].(resetFlow := None)]) else ids
  }

  function RealmExecutions(ids: Identities, r: Id): Identities {
    ids.(executions := ids.executions - ExecutionsOf(ids, r))
  }

  function RealmFlows(ids: Identities, r: Id): Identities { ids.(flows := ids.flows - FlowsOf(ids, r)) }

  function RealmRow(ids: Identities, r: Id): Identities { ids.(realms := ids.realms - {r}) }

  /** The protocol tables after the first eight statements. */
  function WithoutRows(db: Db, r: Id): Db {
    RealmBuckets(RealmSessions(RealmAuths(RealmTokens(RealmLinks(
      RealmCodes(RealmEvents(RealmMails(db, r), r), r), r), r), r), r), r)
  }

  /** The identities after the statements that precede the deletion of keys. */
  function WithoutPeople(ids: Identities, r: Id): Identities {
    RealmClients(RealmUsers(RealmCredentials(ids, r), r), r)
  }

  /** The identities after the statements that precede the deletion of the realm. */
  function WithoutFlows(ids: Identities, r: Id): Identities {
    RealmFlows(RealmExecutions(RealmFlowLink(ids, r), r), r)
  }

  // ---------------------------------------------------------------- foreign keys, statement by statement

  lemma DroppingEventsKeepsRefs(db: Db, gone: set<Id>)
    requires Integrity(db)
    ensures Integrity(db.(events := db.events - gone))
  {
    hide IdentityRefs, KeyTable, BucketTable, AuthTable, LinkTable, SessionTable, CodeTable,
         TokenTable, MailTable;
    assert EventTable(db.ids, db.sessions, db.events - gone);
  }

  lemma UnlinkingKeepsRealm(tokens: map<Id, RefreshToken>, r: Id)
    ensures TokensOf(UnlinkTokens(tokens, TokensOf(tokens, r)), r) == TokensOf(tokens, r)
  {}

  lemma EarlyRealmStatementsSound(db: Db, r: Id)
    requires Integrity(db)
    ensures var m := RealmMails(db, r); var e := RealmEvents(m, r); var c := RealmCodes(e, r);
            var l := RealmLinks(c, r);
            && Integrity(m) && Integrity(e) && Integrity(c) && Integrity(l) && Integrity(RealmTokens(l, r))
  {
    hide IdentityRefs, KeyTable, BucketTable, AuthTable, MailTable, EventTable, SessionTable,
         CodeTable, TokenTable, LinkTable;
    var m := RealmMails(db, r);
    DroppingMailsKeepsRefs(db, MailsOf(db.resetEmails, r));
    var e := RealmEvents(m, r);
    DroppingEventsKeepsRefs(m, EventsOf(m.events, r));
    var c := RealmCodes(e, r);
    DropCodesKeepsRefs(e, CodesOf(e.codes, r));
    var gone := TokensOf(c.tokens, r);
    UnlinkTokensSettles(c.tokens, gone);
    UnlinkingKeepsRealm(c.tokens, r);
    SettlingTokensKeepsRefs(c, UnlinkTokens(c.tokens, gone));
    SettlingTokensKeepsRefs(c, UnlinkTokens(c.tokens, gone) - gone);
  }

  lemma NoMailOfRealm(db: Db, r: Id)
    requires MailTable(db.ids, db.authSessions, db.resetEmails)
    requires forall m | m in db.resetEmails :: db.resetEmails[m].realm != r
    ensures forall m | m in db.resetEmails && db.resetEmails[m].authSession.Some? ::
      db.resetEmails[m].authSession.value !in AuthsOf(db.authSessions, r)
  {
    forall m | m in db.resetEmails && db.resetEmails[m].authSession.Some?
      ensures db.resetEmails[m].authSession.value !in AuthsOf(db.authSessions, r)
    {
      assert MailRefs(db.ids, db.authSessions, db.resetEmails[m]);
    }
  }

  lemma NoChildOfRealm(db: Db, r: Id)
    requires CodeTable(db.ids, db.sessions, db.codes) && TokenTable(db.ids, db.sessions, db.tokens)
    requires EventTable(db.ids, db.sessions, db.events)
    requires forall x | x in db.codes :: db.codes[x].realm != r
    requires forall t | t in db.tokens :: db.tokens[t].realm != r
    requires forall e | e in db.events :: db.events[e].realm != r
    ensures Childless(db, SessionsOf(db.sessions, r))
    ensures forall e | e in db.events && db.events[e].session.Some? ::
      db.events[e].session.value !in SessionsOf(db.sessions, r)
  {
    forall x | x in db.codes ensures db.codes[x].session !in SessionsOf(db.sessions, r) {
      assert CodeRefs(db.ids, db.sessions, db.codes[x]);
    }
    forall t | t in db.tokens ensures db.tokens[t].session !in SessionsOf(db.sessions, r) {
      assert TokenRefs(db.ids, db.sessions, db.tokens[t]);
    }
    forall e | e in db.events && db.events[e].session.Some?
      ensures db.events[e].session.value !in SessionsOf(db.sessions, r)
    {
      assert EventRefs(db.ids, db.sessions, db.events[e]);
    }
  }

  /** No protocol row belongs to the realm. */
  ghost predicate RowFree(db: Db, r: Id) {
    && (forall a | a in db.authSessions :: db.authSessions[a].realm != r)
    && (forall m | m in db.resetEmails :: db.resetEmails[m].realm != r)
    && (forall e | e in db.events :: db.events[e].realm != r)
    && (forall s | s in db.sessions :: db.sessions[s].realm != r)
    && (forall x | x in db.codes :: db.codes[x].realm != r)
    && (forall t | t in db.tokens :: db.tokens[t].realm != r)
    && (forall b | b in db.buckets :: b.realm != r)
  }

  lemma LateRealmStatementsSound(db: Db, r: Id)
    requires Integrity(db)
    ensures var t := RealmTokens(RealmLinks(RealmCodes(RealmEvents(RealmMails(db, r), r), r), r), r);
            var a := RealmAuths(t, r); var s := RealmSessions(a, r);
            Integrity(a) && Integrity(s) && Integrity(WithoutRows(db, r)) && RowFree(WithoutRows(db, r), r)
  {
    hide IdentityRefs, KeyTable, BucketTable, AuthTable, MailTable, EventTable, SessionTable,
         CodeTable, TokenTable, LinkTable;
    EarlyRealmStatementsSound(db, r);
    var t := RealmTokens(RealmLinks(RealmCodes(RealmEvents(RealmMails(db, r), r), r), r), r);
    NoMailOfRealm(t, r);
    DeletingAuthsKeepsRefs(t, AuthsOf(t.authSessions, r));
    var a := RealmAuths(t, r);
    NoChildOfRealm(a, r);
    DeletingSessionsKeepsRefs(a, SessionsOf(a.sessions, r));
    var s := RealmSessions(a, r);
    DropBucketsKeepsRefs(s, BucketsOf(s.buckets, r));
  }

  /** Everything outside the realm is still there. */
  ghost predicate KeepsOutside(a: Identities, b: Identities, r: Id) {
    && (forall x | x in a.realms && x != r :: x in b.realms)
    && (forall x | x in a.clients && a.clients[x].realm != r ::
          x in b.clients && b.clients[x].realm == a.clients[x].realm)
    && (forall x | x in a.users && a.users[x].realm != r ::
          x in b.users && b.users[x].realm == a.users[x].realm)
    && (forall x | x in a.flows && a.flows[x].realm != r ::
          x in b.flows && b.flows[x].realm == a.flows[x].realm)
  }

  lemma KeepsThrough(a: Identities, b: Identities, c: Identities, r: Id)
    requires KeepsOutside(a, b, r) && KeepsOutside(b, c, r)
    ensures KeepsOutside(a, c, r)
  {}

  lemma KeepsItself(ids: Identities, r: Id)
    ensures KeepsOutside(ids, ids, r)
  {}

  lemma OutsideLogins(db: Db, ids: Identities, r: Id)
    requires AuthTable(db.ids, db.authSessions) && MailTable(db.ids, db.authSessions, db.resetEmails)
    requires EventTable(db.ids, db.sessions, db.events)
    requires RowFree(db, r) && KeepsOutside(db.ids, ids, r)
    ensures AuthTable(ids, db.authSessions) && MailTable(ids, db.authSessions, db.resetEmails)
    ensures EventTable(ids, db.sessions, db.events)
  {
    forall a | a in db.authSessions ensures AuthRefs(ids, db.authSessions[a]) {
      assert AuthRefs(db.ids, db.authSessions[a]);
    }
    forall m | m in db.resetEmails ensures MailRefs(ids, db.authSessions, db.resetEmails[m]) {
      assert MailRefs(db.ids, db.authSessions, db.resetEmails[m]);
    }
    forall e | e in db.events ensures EventRefs(ids, db.sessions, db.events[e]) {
      assert EventRefs(db.ids, db.sessions, db.events[e]);
    }
  }

  lemma OutsideSessions(db: Db, ids: Identities, r: Id)
    requires SessionTable(db.ids, db.sessions) && CodeTable(db.ids, db.sessions, db.codes)
    requires TokenTable(db.ids, db.sessions, db.tokens)
    requires RowFree(db, r) && KeepsOutside(db.ids, ids, r)
    ensures SessionTable(ids, db.sessions) && CodeTable(ids, db.sessions, db.codes)
    ensures TokenTable(ids, db.sessions, db.tokens)
  {
    forall s | s in db.sessions ensures SessionRefs(ids, db.sessions[s]) {
      assert SessionRefs(db.ids, db.sessions[s]);
    }
    forall x | x in db.codes ensures CodeRefs(ids, db.sessions, db.codes[x]) {
      assert CodeRefs(db.ids, db.sessions, db.codes[x]);
    }
    forall t | t in db.tokens ensures TokenRefs(ids, db.sessions, db.tokens[t]) {
      assert TokenRefs(db.ids, db.sessions, db.tokens[t]);
    }
  }

  /** A change of identities inside a realm without protocol rows is sound when
      the identities themselves and the keys are. */
  lemma OutsideSound(db: Db, ids: Identities, keys: map<Id, Key>, r: Id)
    requires Integrity(db) && RowFree(db, r) && KeepsOutside(db.ids, ids, r)
    requires IdentityRefs(ids) && KeyTable(ids, keys)
    ensures Integrity(db.(ids := ids, keys := keys))
  {
    hide IdentityRefs, KeyTable, AuthTable, MailTable, EventTable, SessionTable, CodeTable,
         TokenTable, LinkTable;
    OutsideLogins(db, ids, r);
    OutsideSessions(db, ids, r);
  }

  lemma PeopleSound(ids: Identities, r: Id)
    requires IdentityRefs(ids)
    ensures var c := RealmCredentials(ids, r); var u := RealmUsers(c, r);
            && IdentityRefs(c) && IdentityRefs(u) && IdentityRefs(WithoutPeople(ids, r))
            && KeepsOutside(ids, c, r) && KeepsOutside(ids, u, r)
            && KeepsOutside(ids, WithoutPeople(ids, r), r)
            && c.realms == u.realms == WithoutPeople(ids, r).realms == ids.realms
  {}

  /** No client, user or credential belongs to the realm. */
  ghost predicate PeopleFree(clients: map<Id, Client>, users: map<Id, User>, r: Id) {
    && (forall c | c in clients :: clients[c].realm != r)
    && (forall u | u in users :: users[u].realm != r)
  }

  lemma FlowLinkSound(ids: Identities, r: Id)
    requires IdentityRefs(ids)
    ensures var l := RealmFlowLink(ids, r);
            IdentityRefs(l) && l.realms.Keys == ids.realms.Keys && KeepsOutside(ids, l, r)
  {
    hide PeopleRefs, FlowRefs;
    assert RealmFlowLink(ids, r).realms.Keys == ids.realms.Keys;
  }

  lemma ExecutionsSound(ids: Identities, r: Id)
    requires IdentityRefs(ids)
    ensures var e := RealmExecutions(ids, r);
            && IdentityRefs(e) && KeepsOutside(ids, e, r)
            && forall x | x in e.executions :: e.executions[x].flow !in FlowsOf(e, r)
  {
    hide PeopleRefs, ResetLinks;
    assert FlowsOf(RealmExecutions(ids, r), r) == FlowsOf(ids, r);
  }

  lemma FlowRowsSound(ids: Identities, r: Id)
    requires IdentityRefs(ids) && (r in ids.realms ==> ids.realms[r].resetFlow.None?)
    requires forall x | x in ids.executions :: ids.executions[x].flow !in FlowsOf(ids, r)
    ensures IdentityRefs(RealmFlows(ids, r)) && KeepsOutside(ids, RealmFlows(ids, r), r)
  {
    hide PeopleRefs;
  }

  lemma RealmRowSound(ids: Identities, r: Id)
    requires IdentityRefs(ids) && PeopleFree(ids.clients, ids.users, r) && FlowsOf(ids, r) == {}
    ensures IdentityRefs(RealmRow(ids, r)) && KeepsOutside(ids, RealmRow(ids, r), r)
  {
    forall f | f in ids.flows ensures ids.flows[f].realm != r {
      assert f !in FlowsOf(ids, r);
    }
  }

  lemma FlowsSound(ids: Identities, r: Id)
    requires IdentityRefs(ids) && PeopleFree(ids.clients, ids.users, r)
    ensures var l := RealmFlowLink(ids, r); var e := RealmExecutions(l, r); var f := WithoutFlows(ids, r);
            && IdentityRefs(l) && IdentityRefs(e) && IdentityRefs(f) && IdentityRefs(RealmRow(f, r))
            && l.realms.Keys == e.realms.Keys == f.realms.Keys == ids.realms.Keys
            && KeepsOutside(ids, l, r) && KeepsOutside(ids, e, r)
            && KeepsOutside(ids, f, r) && KeepsOutside(ids, RealmRow(f, r), r)
  {
    hide IdentityRefs, KeepsOutside, PeopleFree;
    var l := RealmFlowLink(ids, r);
    FlowLinkSound(ids, r);
    ExecutionsSound(l, r);
    var e := RealmExecutions(l, r);
    KeepsThrough(ids, l, e, r);
    FlowRowsSound(e, r);
    var f := RealmFlows(e, r);
    KeepsThrough(ids, e, f, r);
    assert FlowsOf(f, r) == {};
    RealmRowSound(f, r);
    KeepsThrough(ids, f, RealmRow(f, r), r);
  }

  /** The state once rows and people are gone, before the keys are. */
  function WithoutIdentities(db: Db, r: Id): Db {
    WithoutRows(db, r).(ids := WithoutPeople(WithoutRows(db, r).ids, r))
  }

  lemma PeopleStatementsSound(db: Db, r: Id)
    requires Integrity(db) && RowFree(db, r)
    ensures var c := RealmCredentials(db.ids, r); var u := RealmUsers(c, r);
            && Integrity(db.(ids := c)) && Integrity(db.(ids := u))
            && Integrity(db.(ids := WithoutPeople(db.ids, r)))
            && var w := WithoutPeople(db.ids, r); PeopleFree(w.clients, w.users, r)
  {
    hide IdentityRefs, AuthTable, MailTable, EventTable, SessionTable, CodeTable,
         TokenTable, LinkTable, KeepsOutside, RowFree;
    PeopleSound(db.ids, r);
    OutsideSound(db, RealmCredentials(db.ids, r), db.keys, r);
    OutsideSound(db, RealmUsers(RealmCredentials(db.ids, r), r), db.keys, r);
    OutsideSound(db, WithoutPeople(db.ids, r), db.keys, r);
  }

  lemma FlowStatementsSound(db: Db, r: Id)
    requires Integrity(db) && RowFree(db, r) && PeopleFree(db.ids.clients, db.ids.users, r)
    ensures var k := RealmKeys(db, r); var l := RealmFlowLink(db.ids, r); var f := WithoutFlows(db.ids, r);
            && Integrity(k) && Integrity(k.(ids := l)) && Integrity(k.(ids := RealmExecutions(l, r)))
            && Integrity(k.(ids := f)) && Integrity(k.(ids := RealmRow(f, r)))
  {
    hide IdentityRefs, AuthTable, MailTable, EventTable, SessionTable, CodeTable,
         TokenTable, LinkTable, KeepsOutside, RowFree, PeopleFree, WithoutFlows, RealmFlowLink,
         RealmExecutions, BucketTable;
    var keys := RealmKeys(db, r).keys;
    var l := RealmFlowLink(db.ids, r);
    FlowsSound(db.ids, r);
    KeepsItself(db.ids, r);
    OutsideSound(db, db.ids, keys, r);
    OutsideSound(db, l, keys, r);
    OutsideSound(db, RealmExecutions(l, r), keys, r);
    OutsideSound(db, WithoutFlows(db.ids, r), keys, r);
    assert KeyTable(RealmRow(WithoutFlows(db.ids, r), r), keys);
    OutsideSound(db, RealmRow(WithoutFlows(db.ids, r), r), keys, r);
  }


  // ---------------------------------------------------------------- the whole deletion

  /** Replacement links stay within a realm: no row of another realm is unlinked. */
  lemma NoLinkCrossesRealms(tokens: map<Id, RefreshToken>, r: Id)
    requires FamiliesOk(tokens)
    ensures var gone := TokensOf(tokens, r); UnlinkTokens(tokens, gone) - gone == tokens - gone
  {
    var gone := TokensOf(tokens, r);
    forall t | t in tokens && t !in gone && tokens[t].replacedBy.Some?
      ensures tokens[t].replacedBy.value !in gone
    {
      var next := tokens[t].replacedBy.value;
      assert tokens[t].replacedBy == Some(next);
      assert InLine(t, tokens[t], next, tokens[next]);
    }
  }

  lemma RowStatementsCompute(db: Db, r: Id)
    ensures var z := WithoutRows(db, r); var gone := TokensOf(db.tokens, r);
            && z.ids == db.ids && z.keys == db.keys && z.supply == db.supply
            && z.authSessions == db.authSessions - AuthsOf(db.authSessions, r)
            && z.resetEmails == db.resetEmails - MailsOf(db.resetEmails, r)
            && z.events == db.events - EventsOf(db.events, r)
            && z.codes == db.codes - CodesOf(db.codes, r)
            && z.tokens == UnlinkTokens(db.tokens, gone) - gone
            && z.sessions == db.sessions - SessionsOf(db.sessions, r)
            && z.buckets == db.buckets - BucketsOf(db.buckets, r)
  {
    UnlinkingKeepsRealm(db.tokens, r);
  }

  lemma IdentityStatementsCompute(ids: Identities, r: Id)
    ensures RealmRow(WithoutFlows(WithoutPeople(ids, r), r), r) ==
            Identities(ids.realms - {r}, ids.clients - ClientsOf(ids, r), ids.users - UsersOf(ids, r),
                       ids.credentials - CredentialsOf(ids, r), ids.flows - FlowsOf(ids, r),
                       ids.executions - ExecutionsOf(ids, r))
  {
    var p := WithoutPeople(ids, r);
    var c := RealmCredentials(ids, r);
    assert UsersOf(c, r) == UsersOf(ids, r);
    assert ClientsOf(RealmUsers(c, r), r) == ClientsOf(ids, r);
    var l := RealmFlowLink(p, r);
    assert FlowsOf(l, r) == FlowsOf(ids, r);
    assert ExecutionsOf(l, r) == ExecutionsOf(ids, r);
    var e := RealmExecutions(l, r);
    assert FlowsOf(e, r) == FlowsOf(ids, r);
    assert l.realms - {r} == ids.realms - {r};
  }

  function LastRealmState(db: Db, r: Id): Db {
    var w := WithoutIdentities(db, r);
    RealmKeys(w, r).(ids := RealmRow(WithoutFlows(w.ids, r), r))
  }

  /** The statements compute the plain filter. */
  lemma RealmStatementsFilter(db: Db, r: Id)
    requires FamiliesOk(db.tokens)
    ensures LastRealmState(db, r) == DeleteRealm(db, r)
  {
    hide FamiliesOk, WithoutRows, WithoutPeople, WithoutFlows, RealmRow;
    RowStatementsCompute(db, r);
    NoLinkCrossesRealms(db.tokens, r);
    IdentityStatementsCompute(db.ids, r);
  }

  lemma AllRealmStatementsSound(db: Db, r: Id)
    requires Integrity(db)
    ensures Integrity(WithoutIdentities(db, r)) && Integrity(LastRealmState(db, r))
    ensures var w := WithoutIdentities(db, r);
            RowFree(w, r) && PeopleFree(w.ids.clients, w.ids.users, r)
  {
    hide Integrity, PeopleFree, WithoutRows, WithoutPeople, WithoutFlows, RealmRow;
    LateRealmStatementsSound(db, r);
    PeopleStatementsSound(WithoutRows(db, r), r);
    FlowStatementsSound(WithoutIdentities(db, r), r);
  }

  lemma DeleteRealmKeepsRefs(db: Db, r: Id)
    requires Integrity(db) && FamiliesOk(db.tokens)
    ensures Integrity(DeleteRealm(db, r))
  {
    hide Integrity, FamiliesOk;
    AllRealmStatementsSound(db, r);
    RealmStatementsFilter(db, r);
  }

  // ---------------------------------------------------------------- the invariant

  lemma DeletionDrawn(a: Db, b: Db)
    requires Drawn(a) && a.supply == b.supply
    requires b.ids.realms.Keys <= a.ids.realms.Keys && b.ids.clients.Keys <= a.ids.clients.Keys
    requires b.ids.users.Keys <= a.ids.users.Keys
    requires b.sessions.Keys <= a.sessions.Keys && b.codes.Keys <= a.codes.Keys
    requires b.keys.Keys <= a.keys.Keys && b.authSessions.Keys <= a.authSessions.Keys
    requires b.events.Keys <= a.events.Keys && TokensSettle(a.tokens, b.tokens)
    ensures Drawn(b)
  {
    forall t | t in b.tokens ensures t < b.supply && b.tokens[t].family < b.supply {
      assert Settled(a.tokens[t], b.tokens[t]);
    }
  }

  lemma SubsetSettles(tokens: map<Id, RefreshToken>, left: map<Id, RefreshToken>)
    requires forall t | t in left :: t in tokens && left[t] == tokens[t]
    requires LinkTable(left)
    ensures TokensSettle(tokens, left)
  {}

  lemma DeleteClientAnchors(db: Db, c: Id, owners: map<Id, Id>, now: Time)
    requires RowsOk(db, now) && Integrity(DeleteClient(db, c, owners))
    ensures AllAnchored(db, DeleteClient(db, c, owners))
  {
    hide IdentityRefs, KeyTable, BucketTable, AuthTable, MailTable, EventTable, SessionTable,
         CodeTable, LinkTable;
    var b := DeleteClient(db, c, owners);
    forall t | t in b.tokens ensures Anchored(db, b, b.tokens[t]) {
      assert RecordOf(db.ids, db.keys, db.sessions, t, db.tokens[t]);
      assert TokenRefs(b.ids, b.sessions, b.tokens[t]);
    }
  }

  lemma DeleteClientKeepsInv(db: Db, c: Id, owners: map<Id, Id>, now: Time)
    requires Inv(db, now) && Rehomes(db, c, owners)
    ensures Inv(DeleteClient(db, c, owners), now)
  {
    var b := DeleteClient(db, c, owners);
    DeleteClientKeepsRefs(db, c, owners);
    assert LinkTable(b.tokens);
    hide Integrity, FamiliesOk, Recorded, CreatedBy, TokensBounded, KeysOk, LinkTable, Rehomes;
    SubsetSettles(db.tokens, b.tokens);
    DeleteClientAnchors(db, c, owners, now);
    DeletionDrawn(db, b);
    assert SessionsBounded(b.sessions);
    SettlingKeepsInv(db, b, now);
  }

  lemma DeleteRealmAnchors(db: Db, r: Id, now: Time)
    requires RowsOk(db, now) && Integrity(DeleteRealm(db, r))
    ensures AllAnchored(db, DeleteRealm(db, r))
  {
    hide IdentityRefs, KeyTable, BucketTable, AuthTable, MailTable, EventTable, SessionTable,
         CodeTable, LinkTable;
    var b := DeleteRealm(db, r);
    forall t | t in b.tokens ensures Anchored(db, b, b.tokens[t]) {
      assert RecordOf(db.ids, db.keys, db.sessions, t, db.tokens[t]);
      assert TokenRefs(b.ids, b.sessions, b.tokens[t]);
    }
  }

  lemma DeleteRealmKeepsKeys(keys: map<Id, Key>, r: Id)
    requires KeysOk(keys)
    ensures KeysOk(keys - KeysOf(keys, r))
  {
    var left := keys - KeysOf(keys, r);
    forall k | k in left ensures |ActiveKeys(left, left[k].realm)| == 1 {
      assert ActiveKeys(left, left[k].realm) == ActiveKeys(keys, keys[k].realm);
    }
  }

  lemma DeleteRealmKeepsInv(db: Db, r: Id, now: Time)
    requires Inv(db, now)
    ensures Inv(DeleteRealm(db, r), now)
  {
    var b := DeleteRealm(db, r);
    DeleteRealmKeepsRefs(db, r);
    assert LinkTable(b.tokens);
    hide Integrity, FamiliesOk, Recorded, CreatedBy, TokensBounded, KeysOk, LinkTable;
    SubsetSettles(db.tokens, b.tokens);
    DeleteRealmAnchors(db, r, now);
    DeleteRealmKeepsKeys(db.keys, r);
    DeletionDrawn(db, b);
    assert SessionsBounded(b.sessions);
    SettlingKeepsInv(db, b, now);
  }

  /** Table by table, exactly the rows of the realm are gone and every other row is as it
      was. */
  lemma OtherRealmsUntouched(db: Db, r: Id)
    ensures var after := DeleteRealm(db, r);
            && (forall x :: x in after.keys <==> x in db.keys && db.keys[x].realm != r)
            && (forall x | x in after.keys :: after.keys[x] == db.keys[x])
            && (forall x :: x in after.authSessions <==> x in db.authSessions && db.authSessions[x].realm != r)
            && (forall x | x in after.authSessions :: after.authSessions[x] == db.authSessions[x])
            && (forall x :: x in after.resetEmails <==> x in db.resetEmails && db.resetEmails[x].realm != r)
            && (forall x | x in after.resetEmails :: after.resetEmails[x] == db.resetEmails[x])
            && (forall x :: x in after.sessions <==> x in db.sessions && db.sessions[x].realm != r)
            && (forall x | x in after.sessions :: after.sessions[x] == db.sessions[x])
            && (forall x :: x in after.codes <==> x in db.codes && db.codes[x].realm != r)
            && (forall x | x in after.codes :: after.codes[x] == db.codes[x])
            && (forall x :: x in after.tokens <==> x in db.tokens && db.tokens[x].realm != r)
            && (forall x | x in after.tokens :: after.tokens[x] == db.tokens[x])
            && (forall x :: x in after.events <==> x in db.events && db.events[x].realm != r)
            && (forall x | x in after.events :: after.events[x] == db.events[x])
            && (forall x :: x in after.buckets <==> x in db.buckets && x.realm != r)
            && (forall x | x in after.buckets :: after.buckets[x] == db.buckets[x])
            && after.supply == db.supply
  {}

  /** So are the people and flows of other realms. */
  lemma OtherPeopleUntouched(db: Db, r: Id)
    requires IdentityRefs(db.ids)
    ensures var (ids, left) := (db.ids, DeleteRealm(db, r).ids);
            && (forall x :: x in left.realms <==> x in ids.realms && x != r)
            && (forall x | x in left.realms :: left.realms[x] == ids.realms[x])
            && (forall x :: x in left.clients <==> x in ids.clients && ids.clients[x].realm != r)
            && (forall x | x in left.clients :: left.clients[x] == ids.clients[x])
            && (forall x :: x in left.users <==> x in ids.users && ids.users[x].realm != r)
            && (forall x | x in left.users :: left.users[x] == ids.users[x])
            && (forall x :: x in left.flows <==> x in ids.flows && ids.flows[x].realm != r)
            && (forall x | x in left.flows :: left.flows[x] == ids.flows[x])
            && (forall x :: x in left.credentials <==>
                  x in ids.credentials && ids.users[ids.credentials[x].user].realm != r)
            && (forall x | x in left.credentials :: left.credentials[x] == ids.credentials[x])
            && (forall x :: x in left.executions <==>
                  x in ids.executions && ids.flows[ids.executions[x].flow].realm != r)
            && (forall x | x in left.executions :: left.executions[x] == ids.executions[x])
  {
    hide ResetLinks, AuthsOf, MailsOf, EventsOf, SessionsOf, CodesOf, TokensOf, BucketsOf, KeysOf;
  }
}

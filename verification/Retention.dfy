/** What `cleanup_expired` removes, one table at a time. */
module Retention {
  import opened Prelude
  import opened Tables
  import opened Protocol
  import opened Invariants

  // ---------------------------------------------------------------- stale rows

  /** A session is inactive once it is revoked or past either bound. */
  predicate Inactive(sessions: map<Id, UserSession>, s: Id, cutoff: Time) {
    s in sessions && (sessions[s].revokedAt.Some? || Expired(sessions[s], cutoff))
  }

  function StaleAuths(db: Db, cutoff: Time): set<Id> {
    set a | a in db.authSessions && db.authSessions[a].expiresAt <= cutoff
  }

  predicate CodeStale(sessions: map<Id, UserSession>, row: Code, cutoff: Time) {
    row.expiresAt <= cutoff || Inactive(sessions, row.session, cutoff)
  }

  function StaleCodes(db: Db, cutoff: Time): set<Id> {
    set c | c in db.codes && CodeStale(db.sessions, db.codes[c], cutoff)
  }

  predicate TokenStale(sessions: map<Id, UserSession>, row: RefreshToken, cutoff: Time) {
    row.expiresAt <= cutoff || row.revokedAt.Some? || Inactive(sessions, row.session, cutoff)
  }

  function StaleTokens(db: Db, cutoff: Time): set<Id> {
    set t | t in db.tokens && TokenStale(db.sessions, db.tokens[t], cutoff)
  }

  function StaleSessions(db: Db, cutoff: Time): set<Id> {
    set s | s in db.sessions && Expired(db.sessions[s], cutoff)
  }

  function StaleBuckets(db: Db, cutoff: Time): set<BucketKey> {
    set b | b in db.buckets && db.buckets[b].expiresAt <= cutoff
  }

  // ---------------------------------------------------------------- unlinking and deleting

  function UnlinkMails(mails: map<Id, ResetEmail>, gone: set<Id>): map<Id, ResetEmail> {
    map m | m in mails ::
      if mails[m].authSession.Some? && mails[m].authSession.value in gone
      then mails[m].(authSession := None) else mails[m]
  }

  function UnlinkTokens(tokens: map<Id, RefreshToken>, gone: set<Id>): map<Id, RefreshToken> {
    map t | t in tokens ::
      if tokens[t].replacedBy.Some? && tokens[t].replacedBy.value in gone
      then tokens[t].(replacedBy := None) else tokens[t]
  }

  function UnlinkEvents(events: map<Id, Event>, gone: set<Id>): map<Id, Event> {
    map e | e in events ::
      if events[e].session.Some? && events[e].session.value in gone
      then events[e].(session := None) else events[e]
  }

  function DropAuths(db: Db, gone: set<Id>): Db {
    db.(resetEmails := UnlinkMails(db.resetEmails, gone), authSessions := db.authSessions - gone)
  }

  function DropCodes(db: Db, gone: set<Id>): Db { db.(codes := db.codes - gone) }

  function DropTokens(db: Db, gone: set<Id>): Db {
    db.(tokens := UnlinkTokens(db.tokens, gone) - gone)
  }

  function DropSessions(db: Db, gone: set<Id>): Db {
    db.(events := UnlinkEvents(db.events, gone), sessions := db.sessions - gone)
  }

  function DropBuckets(db: Db, gone: set<BucketKey>): Db { db.(buckets := db.buckets - gone) }

  /** One batch of a cleanup: some rows of one table. */
  datatype Batch =
    | BatchAuths(auths: set<Id>)
    | BatchCodes(codes: set<Id>)
    | BatchTokens(tokens: set<Id>)
    | BatchSessions(sessions: set<Id>)
    | BatchBuckets(buckets: set<BucketKey>)

  /** The rows were selected by the predicate of their table; a session whose
      children are still there cannot be deleted. */
  ghost predicate BatchFits(db: Db, cutoff: Time, batch: Batch) {
    match batch
    case BatchAuths(gone) => gone <= StaleAuths(db, cutoff)
    case BatchCodes(gone) => gone <= StaleCodes(db, cutoff)
    case BatchTokens(gone) => gone <= StaleTokens(db, cutoff)
    case BatchSessions(gone) => gone <= StaleSessions(db, cutoff) && Childless(db, gone)
    case BatchBuckets(gone) => gone <= StaleBuckets(db, cutoff)
  }

  function DropBatch(db: Db, batch: Batch): Db {
    match batch
    case BatchAuths(gone) => DropAuths(db, gone)
    case BatchCodes(gone) => DropCodes(db, gone)
    case BatchTokens(gone) => DropTokens(db, gone)
    case BatchSessions(gone) => DropSessions(db, gone)
    case BatchBuckets(gone) => DropBuckets(db, gone)
  }

  function BatchSize(batch: Batch): nat {
    match batch
    case BatchAuths(gone) => |gone|
    case BatchCodes(gone) => |gone|
    case BatchTokens(gone) => |gone|
    case BatchSessions(gone) => |gone|
    case BatchBuckets(gone) => |gone|
  }

  /** From `a` to `b` in batches, each of at least one and at most `limit` rows. */
  ghost predicate Batched(a: Db, batches: seq<Batch>, cutoff: Time, limit: nat, b: Db)
    decreases |batches|
  {
    if batches == [] then b == a
    else
      && BatchFits(a, cutoff, batches[0]) && 1 <= BatchSize(batches[0]) <= limit
      && Batched(DropBatch(a, batches[0]), batches[1..], cutoff, limit, b)
  }

  lemma {:induction false} BatchedSnoc(a: Db, batches: seq<Batch>, cutoff: Time, limit: nat, b: Db, last: Batch)
    requires Batched(a, batches, cutoff, limit, b) && BatchFits(b, cutoff, last) && 1 <= BatchSize(last) <= limit
    ensures Batched(a, batches + [last], cutoff, limit, DropBatch(b, last))
    decreases |batches|
  {
    hide BatchFits, DropBatch, BatchSize;
    if batches == [] {
      assert batches + [last] == [last];
      assert [last][1..] == [];
    } else {
      assert (batches + [last])[1..] == batches[1..] + [last];
      BatchedSnoc(DropBatch(a, batches[0]), batches[1..], cutoff, limit, b, last);
    }
  }

  lemma {:induction false} BatchedTogether(a: Db, x: seq<Batch>, b: Db, y: seq<Batch>, c: Db, cutoff: Time, limit: nat)
    requires Batched(a, x, cutoff, limit, b) && Batched(b, y, cutoff, limit, c)
    ensures Batched(a, x + y, cutoff, limit, c)
    decreases |x|
  {
    hide BatchFits, DropBatch, BatchSize;
    if x == [] {
      assert x + y == y;
    } else {
      assert (x + y)[1..] == x[1..] + y;
      BatchedTogether(DropBatch(a, x[0]), x[1..], b, y, c, cutoff, limit);
    }
  }

  /** The whole run as one filter over the state it started from. */
  function CleanupExpired(db: Db, cutoff: Time): Db {
    var a := DropAuths(db, StaleAuths(db, cutoff));
    var c := DropCodes(a, StaleCodes(db, cutoff));
    var t := DropTokens(c, StaleTokens(db, cutoff));
    var s := DropSessions(t, StaleSessions(db, cutoff));
    DropBuckets(s, StaleBuckets(db, cutoff))
  }

  // ---------------------------------------------------------------- foreign keys

  lemma UnlinkMailsKeepsRefs(db: Db, gone: set<Id>)
    requires Integrity(db)
    ensures Integrity(db.(resetEmails := UnlinkMails(db.resetEmails, gone)))
    ensures MailTable(db.ids, db.authSessions - gone, UnlinkMails(db.resetEmails, gone))
  {
    hide IdentityRefs, KeyTable, BucketTable, AuthTable, EventTable, SessionTable, CodeTable,
         TokenTable, LinkTable;
    var mails := UnlinkMails(db.resetEmails, gone);
    forall m | m in mails
      ensures MailRefs(db.ids, db.authSessions, mails[m])
      ensures MailRefs(db.ids, db.authSessions - gone, mails[m])
    {
      assert MailRefs(db.ids, db.authSessions, db.resetEmails[m]);
    }
  }

  lemma DropAuthsKeepsRefs(db: Db, gone: set<Id>)
    requires Integrity(db)
    ensures Integrity(DropAuths(db, gone))
  {
    hide IdentityRefs, KeyTable, BucketTable, EventTable, SessionTable, CodeTable,
         TokenTable, LinkTable, MailTable;
    UnlinkMailsKeepsRefs(db, gone);
    assert AuthTable(db.ids, db.authSessions - gone);
  }

  lemma DropCodesKeepsRefs(db: Db, gone: set<Id>)
    requires Integrity(db)
    ensures Integrity(DropCodes(db, gone))
  {
    hide IdentityRefs, KeyTable, BucketTable, EventTable, SessionTable, AuthTable,
         TokenTable, LinkTable, MailTable;
    assert CodeTable(db.ids, db.sessions, db.codes - gone);
  }

  lemma UnlinkTokensSettles(tokens: map<Id, RefreshToken>, gone: set<Id>)
    requires LinkTable(tokens)
    ensures TokensSettle(tokens, UnlinkTokens(tokens, gone))
    ensures TokensSettle(tokens, UnlinkTokens(tokens, gone) - gone)
  {}

  lemma SettlingKeepsTable(ids: Identities, sessions: map<Id, UserSession>,
                           a: map<Id, RefreshToken>, b: map<Id, RefreshToken>)
    requires TokenTable(ids, sessions, a) && TokensSettle(a, b)
    ensures TokenTable(ids, sessions, b)
  {
    forall t | t in b ensures TokenRefs(ids, sessions, b[t]) {
      assert Settled(a[t], b[t]) && TokenRefs(ids, sessions, a[t]);
    }
  }

  lemma SettlingTokensKeepsRefs(db: Db, tokens: map<Id, RefreshToken>)
    requires Integrity(db) && TokensSettle(db.tokens, tokens)
    ensures Integrity(db.(tokens := tokens))
  {
    hide IdentityRefs, KeyTable, BucketTable, EventTable, SessionTable, AuthTable,
         TokenTable, CodeTable, MailTable;
    SettlingKeepsTable(db.ids, db.sessions, db.tokens, tokens);
  }

  lemma UnlinkEventsKeepsRefs(db: Db, gone: set<Id>)
    requires Integrity(db)
    ensures Integrity(db.(events := UnlinkEvents(db.events, gone)))
    ensures EventTable(db.ids, db.sessions - gone, UnlinkEvents(db.events, gone))
  {
    hide IdentityRefs, KeyTable, BucketTable, AuthTable, MailTable, SessionTable, CodeTable,
         TokenTable, LinkTable;
    var events := UnlinkEvents(db.events, gone);
    forall e | e in events
      ensures EventRefs(db.ids, db.sessions, events[e])
      ensures EventRefs(db.ids, db.sessions - gone, events[e])
    {
      assert EventRefs(db.ids, db.sessions, db.events[e]);
    }
  }

  /** No code and no token belongs to any of these sessions. */
  ghost predicate Childless(db: Db, gone: set<Id>) {
    && (forall c | c in db.codes :: db.codes[c].session !in gone)
    && (forall t | t in db.tokens :: db.tokens[t].session !in gone)
  }

  lemma DropSessionsKeepsRefs(db: Db, gone: set<Id>)
    requires Integrity(db) && Childless(db, gone)
    ensures Integrity(DropSessions(db, gone))
  {
    hide IdentityRefs, KeyTable, BucketTable, AuthTable, MailTable, LinkTable, EventTable;
    UnlinkEventsKeepsRefs(db, gone);
    var left := db.sessions - gone;
    assert SessionTable(db.ids, left);
    forall c | c in db.codes ensures CodeRefs(db.ids, left, db.codes[c]) {
      assert CodeRefs(db.ids, db.sessions, db.codes[c]);
    }
    forall t | t in db.tokens ensures TokenRefs(db.ids, left, db.tokens[t]) {
      assert TokenRefs(db.ids, db.sessions, db.tokens[t]);
    }
  }

  lemma DropBucketsKeepsRefs(db: Db, gone: set<BucketKey>)
    requires Integrity(db)
    ensures Integrity(DropBuckets(db, gone))
  {
    hide IdentityRefs, KeyTable, EventTable, SessionTable, AuthTable, CodeTable,
         TokenTable, LinkTable, MailTable;
  }

  // ---------------------------------------------------------------- the invariant

  /** Once stale codes and tokens are gone, expired sessions have no children. */
  lemma StaleLeavesChildless(db: Db, cutoff: Time)
    requires CodeTable(db.ids, db.sessions, db.codes) && TokenTable(db.ids, db.sessions, db.tokens)
    ensures Childless(DropTokens(DropCodes(db, StaleCodes(db, cutoff)), StaleTokens(db, cutoff)),
                      StaleSessions(db, cutoff))
  {
    forall c | c in db.codes && c !in StaleCodes(db, cutoff)
      ensures db.codes[c].session !in StaleSessions(db, cutoff)
    {
      assert CodeRefs(db.ids, db.sessions, db.codes[c]);
    }
    forall t | t in db.tokens && t !in StaleTokens(db, cutoff)
      ensures db.tokens[t].session !in StaleSessions(db, cutoff)
    {
      assert TokenRefs(db.ids, db.sessions, db.tokens[t]);
    }
  }

  lemma DroppingKeepsDrawn(a: Db, b: Db)
    requires Drawn(a) && a.ids == b.ids && a.supply == b.supply
    requires b.sessions.Keys <= a.sessions.Keys && b.codes.Keys <= a.codes.Keys
    requires b.keys.Keys <= a.keys.Keys && b.authSessions.Keys <= a.authSessions.Keys
    requires b.events.Keys <= a.events.Keys
    requires TokensSettle(a.tokens, b.tokens)
    ensures Drawn(b)
  {
    forall t | t in b.tokens ensures t < b.supply && b.tokens[t].family < b.supply {
      assert Settled(a.tokens[t], b.tokens[t]);
    }
  }

  lemma DropTokensKeepsRefs(db: Db, gone: set<Id>)
    requires Integrity(db)
    ensures Integrity(DropTokens(db, gone))
    ensures TokensSettle(db.tokens, DropTokens(db, gone).tokens)
  {
    hide IdentityRefs, KeyTable, BucketTable, AuthTable, MailTable, EventTable, SessionTable, CodeTable,
         TokenTable, LinkTable, UnlinkTokens;
    UnlinkTokensSettles(db.tokens, gone);
    SettlingTokensKeepsRefs(db, UnlinkTokens(db.tokens, gone) - gone);
  }

  lemma BatchKeepsRefs(db: Db, cutoff: Time, batch: Batch)
    requires Integrity(db) && BatchFits(db, cutoff, batch)
    ensures Integrity(DropBatch(db, batch)) && TokensSettle(db.tokens, DropBatch(db, batch).tokens)
  {
    hide IdentityRefs, KeyTable, BucketTable, AuthTable, MailTable, EventTable, SessionTable, CodeTable,
         TokenTable, UnlinkTokens, UnlinkMails, UnlinkEvents;
    match batch
    case BatchAuths(gone) => DropAuthsKeepsRefs(db, gone);
    case BatchCodes(gone) => DropCodesKeepsRefs(db, gone);
    case BatchTokens(gone) => DropTokensKeepsRefs(db, gone);
    case BatchSessions(gone) => DropSessionsKeepsRefs(db, gone);
    case BatchBuckets(gone) => DropBucketsKeepsRefs(db, gone);
  }

  lemma TokensHaveSessions(db: Db)
    requires Integrity(db)
    ensures forall t | t in db.tokens :: db.tokens[t].session in db.sessions
  {
    hide IdentityRefs, KeyTable, BucketTable, AuthTable, MailTable, EventTable, SessionTable, CodeTable, LinkTable;
    assert forall t | t in db.tokens :: TokenRefs(db.ids, db.sessions, db.tokens[t]);
  }

  lemma BatchFrame(db: Db, batch: Batch)
    ensures var after := DropBatch(db, batch);
            && after.ids == db.ids && after.keys == db.keys && after.supply == db.supply
            && after.sessions.Keys <= db.sessions.Keys && after.codes.Keys <= db.codes.Keys
            && after.authSessions.Keys <= db.authSessions.Keys && after.events.Keys <= db.events.Keys
            && (forall s | s in after.sessions :: after.sessions[s] == db.sessions[s])
  {}

  lemma BatchKeepsInv(db: Db, cutoff: Time, batch: Batch, now: Time)
    requires Inv(db, now) && BatchFits(db, cutoff, batch)
    ensures Inv(DropBatch(db, batch), now)
  {
    hide Integrity, FamiliesOk, Recorded, CreatedBy, TokensBounded, KeysOk, TokensSettle, Drawn, DropBatch, BatchFits;
    var after := DropBatch(db, batch);
    BatchKeepsRefs(db, cutoff, batch);
    BatchFrame(db, batch);
    TokensHaveSessions(after);
    SameAnchors(db, after, now);
    DroppingKeepsDrawn(db, after);
    assert SessionsBounded(after.sessions);
    SettlingKeepsInv(db, after, now);
  }
}

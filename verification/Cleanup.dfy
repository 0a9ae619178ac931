/** The batched cleanup: five loops, each batch one transaction. */
module Cleanup {
  import opened Prelude
  import opened Tables
  import opened Protocol
  import opened Invariants
  import opened Retention
  import opened UnitOfWork

  /** Rows deleted from each table. */
  datatype Counts = Counts(auths: nat, codes: nat, tokens: nat, sessions: nat, buckets: nat)

  // ---------------------------------------------------------------- batches compose

  lemma AuthBatches(db: Db, g: set<Id>, h: set<Id>, cutoff: Time)
    ensures DropAuths(DropAuths(db, g), h) == DropAuths(db, g + h)
    ensures StaleAuths(DropAuths(db, g), cutoff) == StaleAuths(db, cutoff) - g
  {
    assert UnlinkMails(UnlinkMails(db.resetEmails, g), h) == UnlinkMails(db.resetEmails, g + h);
    assert db.authSessions - g - h == db.authSessions - (g + h);
  }

  lemma CodeBatches(db: Db, g: set<Id>, h: set<Id>, cutoff: Time)
    ensures DropCodes(DropCodes(db, g), h) == DropCodes(db, g + h)
    ensures StaleCodes(DropCodes(db, g), cutoff) == StaleCodes(db, cutoff) - g
  {
    hide CodeStale;
    assert db.codes - g - h == db.codes - (g + h);
  }

  lemma TokenBatches(db: Db, g: set<Id>, h: set<Id>, cutoff: Time)
    ensures DropTokens(DropTokens(db, g), h) == DropTokens(db, g + h)
    ensures StaleTokens(DropTokens(db, g), cutoff) == StaleTokens(db, cutoff) - g
  {
    var x, y := UnlinkTokens(UnlinkTokens(db.tokens, g) - g, h) - h, UnlinkTokens(db.tokens, g + h) - (g + h);
    assert x.Keys == y.Keys;
    assert x == y;
  }

  lemma SessionBatches(db: Db, g: set<Id>, h: set<Id>, cutoff: Time)
    ensures DropSessions(DropSessions(db, g), h) == DropSessions(db, g + h)
    ensures StaleSessions(DropSessions(db, g), cutoff) == StaleSessions(db, cutoff) - g
  {
    assert UnlinkEvents(UnlinkEvents(db.events, g), h) == UnlinkEvents(db.events, g + h);
    assert db.sessions - g - h == db.sessions - (g + h);
  }

  lemma BucketBatches(db: Db, g: set<BucketKey>, h: set<BucketKey>, cutoff: Time)
    ensures DropBuckets(DropBuckets(db, g), h) == DropBuckets(db, g + h)
    ensures StaleBuckets(DropBuckets(db, g), cutoff) == StaleBuckets(db, cutoff) - g
  {
    assert db.buckets - g - h == db.buckets - (g + h);
  }

  // ---------------------------------------------------------------- selecting a batch

  /** `LIMIT`: as many rows as allowed and available. */
  method Take<T(==)>(rows: set<T>, limit: nat) returns (batch: set<T>)
    ensures batch <= rows && |batch| == Min(limit, |rows|)
  {
    batch := {};
    var left := rows;
    while left != {} && |batch| < limit
      invariant left !! batch && left + batch == rows && |left| + |batch| == |rows|
      invariant |batch| <= limit
      decreases left
    {
      var x :| x in left;
      batch, left := batch + {x}, left - {x};
    }
  }

  lemma TakenGrows<T>(stale: set<T>, gone: set<T>, batch: set<T>, limit: nat)
    requires gone <= stale && batch <= stale - gone && stale != gone && 0 < limit
    requires |batch| == Min(limit, |stale - gone|)
    ensures batch != {} && gone + batch <= stale && |gone + batch| == |gone| + |batch|
    ensures stale - (gone + batch) < stale - gone
  {
    var y :| y in stale && y !in gone;
    assert y in stale - gone;
    var x :| x in batch;
    assert x in stale - gone && x !in stale - (gone + batch);
  }

  // ---------------------------------------------------------------- batches in a row

  lemma NoBatches(db: Db, cutoff: Time, limit: nat)
    ensures Batched(db, [], cutoff, limit, db)
  {}

  lemma SomeRows<T>(batch: set<T>)
    requires batch != {}
    ensures 1 <= |batch|
  {}

  lemma AuthBatched(a: Db, batches: seq<Batch>, cutoff: Time, limit: nat, b: Db, batch: set<Id>)
    requires Batched(a, batches, cutoff, limit, b) && batch != {} && |batch| <= limit
    requires batch <= StaleAuths(b, cutoff)
    ensures Batched(a, batches + [BatchAuths(batch)], cutoff, limit, DropAuths(b, batch))
  {
    hide Batched, StaleAuths, DropAuths;
    SomeRows(batch);
    BatchedSnoc(a, batches, cutoff, limit, b, BatchAuths(batch));
  }

  lemma CodeBatched(a: Db, batches: seq<Batch>, cutoff: Time, limit: nat, b: Db, batch: set<Id>)
    requires Batched(a, batches, cutoff, limit, b) && batch != {} && |batch| <= limit
    requires batch <= StaleCodes(b, cutoff)
    ensures Batched(a, batches + [BatchCodes(batch)], cutoff, limit, DropCodes(b, batch))
  {
    hide Batched, StaleCodes, DropCodes;
    SomeRows(batch);
    BatchedSnoc(a, batches, cutoff, limit, b, BatchCodes(batch));
  }

  lemma TokenBatched(a: Db, batches: seq<Batch>, cutoff: Time, limit: nat, b: Db, batch: set<Id>)
    requires Batched(a, batches, cutoff, limit, b) && batch != {} && |batch| <= limit
    requires batch <= StaleTokens(b, cutoff)
    ensures Batched(a, batches + [BatchTokens(batch)], cutoff, limit, DropTokens(b, batch))
  {
    hide Batched, StaleTokens, DropTokens;
    SomeRows(batch);
    BatchedSnoc(a, batches, cutoff, limit, b, BatchTokens(batch));
  }

  lemma SessionBatched(a: Db, batches: seq<Batch>, cutoff: Time, limit: nat, b: Db, batch: set<Id>)
    requires Batched(a, batches, cutoff, limit, b) && batch != {} && |batch| <= limit
    requires batch <= StaleSessions(b, cutoff) && Childless(b, batch)
    ensures Batched(a, batches + [BatchSessions(batch)], cutoff, limit, DropSessions(b, batch))
  {
    hide Batched, StaleSessions, DropSessions, Childless;
    SomeRows(batch);
    BatchedSnoc(a, batches, cutoff, limit, b, BatchSessions(batch));
  }

  lemma BucketBatched(a: Db, batches: seq<Batch>, cutoff: Time, limit: nat, b: Db, batch: set<BucketKey>)
    requires Batched(a, batches, cutoff, limit, b) && batch != {} && |batch| <= limit
    requires batch <= StaleBuckets(b, cutoff)
    ensures Batched(a, batches + [BatchBuckets(batch)], cutoff, limit, DropBuckets(b, batch))
  {
    hide Batched, StaleBuckets, DropBuckets;
    SomeRows(batch);
    BatchedSnoc(a, batches, cutoff, limit, b, BatchBuckets(batch));
  }

  // ---------------------------------------------------------------- one loop a table

  method CleanAuths(session: Session, cutoff: Time, limit: nat)
    returns (deleted: nat, ghost batches: seq<Batch>)
    requires 0 < limit && Integrity(session.tables) && session.durable == session.tables
    modifies session
    ensures session.tables == DropAuths(old(session.tables), StaleAuths(old(session.tables), cutoff))
    ensures deleted == |StaleAuths(old(session.tables), cutoff)|
    ensures Batched(old(session.tables), batches, cutoff, limit, session.tables)
    ensures session.durable == session.tables && Integrity(session.tables)
    ensures old(session.trail) <= session.trail && SoundSince(session.trail, |old(session.trail)|)
  {
    hide Integrity, Batched, StaleAuths, DropAuths;
    ghost var base, start := session.tables, |session.trail|;
    ghost var gone: set<Id> := {};
    NothingDropped(base);
    AuthBatches(base, gone, {}, cutoff);
    deleted, batches := 0, [];
    NoBatches(base, cutoff, limit);
    while StaleAuths(session.tables, cutoff) != {}
      invariant gone <= StaleAuths(base, cutoff) && deleted == |gone|
      invariant session.tables == DropAuths(base, gone)
      invariant StaleAuths(session.tables, cutoff) == StaleAuths(base, cutoff) - gone
      invariant Batched(base, batches, cutoff, limit, session.tables)
      invariant session.durable == session.tables && Integrity(session.tables)
      invariant old(session.trail) <= session.trail && SoundSince(session.trail, start)
      decreases StaleAuths(base, cutoff) - gone
    {
      var db := session.tables;
      var batch := Take(StaleAuths(db, cutoff), limit);
      TakenGrows(StaleAuths(base, cutoff), gone, batch, limit);
      AuthBatched(base, batches, cutoff, limit, db, batch);
      UnlinkMailsKeepsRefs(db, batch);
      session.Execute(db.(resetEmails := UnlinkMails(db.resetEmails, batch)));
      AuthBatches(base, gone, batch, cutoff);
      AuthBatches(base, gone + batch, {}, cutoff);
      DropAuthsKeepsRefs(db, batch);
      DropAuthsIs(db, batch);
      session.Execute(session.tables.(authSessions := session.tables.authSessions - batch));
      session.Commit();
      gone, batches := gone + batch, batches + [BatchAuths(batch)];
      deleted := deleted + |batch|;
    }
    assert gone == StaleAuths(base, cutoff);
  }

  method CleanCodes(session: Session, cutoff: Time, limit: nat)
    returns (deleted: nat, ghost batches: seq<Batch>)
    requires 0 < limit && Integrity(session.tables) && session.durable == session.tables
    modifies session
    ensures session.tables == DropCodes(old(session.tables), StaleCodes(old(session.tables), cutoff))
    ensures deleted == |StaleCodes(old(session.tables), cutoff)|
    ensures Batched(old(session.tables), batches, cutoff, limit, session.tables)
    ensures session.durable == session.tables && Integrity(session.tables)
    ensures old(session.trail) <= session.trail && SoundSince(session.trail, |old(session.trail)|)
  {
    hide Integrity, Batched, StaleCodes, DropCodes;
    ghost var base, start := session.tables, |session.trail|;
    ghost var gone: set<Id> := {};
    NothingDropped(base);
    CodeBatches(base, gone, {}, cutoff);
    deleted, batches := 0, [];
    NoBatches(base, cutoff, limit);
    while StaleCodes(session.tables, cutoff) != {}
      invariant gone <= StaleCodes(base, cutoff) && deleted == |gone|
      invariant session.tables == DropCodes(base, gone)
      invariant StaleCodes(session.tables, cutoff) == StaleCodes(base, cutoff) - gone
      invariant Batched(base, batches, cutoff, limit, session.tables)
      invariant session.durable == session.tables && Integrity(session.tables)
      invariant old(session.trail) <= session.trail && SoundSince(session.trail, start)
      decreases StaleCodes(base, cutoff) - gone
    {
      var batch := Take(StaleCodes(session.tables, cutoff), limit);
      TakenGrows(StaleCodes(base, cutoff), gone, batch, limit);
      CodeBatched(base, batches, cutoff, limit, session.tables, batch);
      CodeBatches(base, gone, batch, cutoff);
      CodeBatches(base, gone + batch, {}, cutoff);
      DropCodesKeepsRefs(session.tables, batch);
      session.Execute(DropCodes(session.tables, batch));
      session.Commit();
      gone, batches := gone + batch, batches + [BatchCodes(batch)];
      deleted := deleted + |batch|;
    }
    assert gone == StaleCodes(base, cutoff);
  }

  method CleanTokens(session: Session, cutoff: Time, limit: nat)
    returns (deleted: nat, ghost batches: seq<Batch>)
    requires 0 < limit && Integrity(session.tables) && session.durable == session.tables
    modifies session
    ensures session.tables == DropTokens(old(session.tables), StaleTokens(old(session.tables), cutoff))
    ensures deleted == |StaleTokens(old(session.tables), cutoff)|
    ensures Batched(old(session.tables), batches, cutoff, limit, session.tables)
    ensures session.durable == session.tables && Integrity(session.tables)
    ensures old(session.trail) <= session.trail && SoundSince(session.trail, |old(session.trail)|)
  {
    hide Integrity, Batched, StaleTokens, DropTokens, TokensSettle, LinkTable;
    ghost var base, start := session.tables, |session.trail|;
    ghost var gone: set<Id> := {};
    NothingDropped(base);
    TokenBatches(base, gone, {}, cutoff);
    deleted, batches := 0, [];
    NoBatches(base, cutoff, limit);
    while StaleTokens(session.tables, cutoff) != {}
      invariant gone <= StaleTokens(base, cutoff) && deleted == |gone|
      invariant session.tables == DropTokens(base, gone)
      invariant StaleTokens(session.tables, cutoff) == StaleTokens(base, cutoff) - gone
      invariant Batched(base, batches, cutoff, limit, session.tables)
      invariant session.durable == session.tables && Integrity(session.tables)
      invariant old(session.trail) <= session.trail && SoundSince(session.trail, start)
      decreases StaleTokens(base, cutoff) - gone
    {
      var db := session.tables;
      var batch := Take(StaleTokens(db, cutoff), limit);
      TakenGrows(StaleTokens(base, cutoff), gone, batch, limit);
      TokenBatched(base, batches, cutoff, limit, db, batch);
      UnlinkingTokensKeepsRefs(db, batch);
      session.Execute(db.(tokens := UnlinkTokens(db.tokens, batch)));
      TokenBatches(base, gone, batch, cutoff);
      TokenBatches(base, gone + batch, {}, cutoff);
      DropTokensKeepsRefs(db, batch);
      DropTokensIs(db, batch);
      session.Execute(session.tables.(tokens := session.tables.tokens - batch));
      session.Commit();
      gone, batches := gone + batch, batches + [BatchTokens(batch)];
      deleted := deleted + |batch|;
    }
    assert gone == StaleTokens(base, cutoff);
  }

  method CleanSessions(session: Session, cutoff: Time, limit: nat)
    returns (deleted: nat, ghost batches: seq<Batch>)
    requires 0 < limit && Integrity(session.tables) && session.durable == session.tables
    requires Childless(session.tables, StaleSessions(session.tables, cutoff))
    modifies session
    ensures session.tables == DropSessions(old(session.tables), StaleSessions(old(session.tables), cutoff))
    ensures deleted == |StaleSessions(old(session.tables), cutoff)|
    ensures Batched(old(session.tables), batches, cutoff, limit, session.tables)
    ensures session.durable == session.tables && Integrity(session.tables)
    ensures old(session.trail) <= session.trail && SoundSince(session.trail, |old(session.trail)|)
  {
    hide Integrity, Batched, StaleSessions, DropSessions, Childless;
    ghost var base, start := session.tables, |session.trail|;
    ghost var gone: set<Id> := {};
    NothingDropped(base);
    SessionBatches(base, gone, {}, cutoff);
    deleted, batches := 0, [];
    NoBatches(base, cutoff, limit);
    while StaleSessions(session.tables, cutoff) != {}
      invariant gone <= StaleSessions(base, cutoff) && deleted == |gone|
      invariant session.tables == DropSessions(base, gone)
      invariant StaleSessions(session.tables, cutoff) == StaleSessions(base, cutoff) - gone
      invariant Batched(base, batches, cutoff, limit, session.tables)
      invariant session.durable == session.tables && Integrity(session.tables)
      invariant old(session.trail) <= session.trail && SoundSince(session.trail, start)
      decreases StaleSessions(base, cutoff) - gone
    {
      var db := session.tables;
      var batch := Take(StaleSessions(db, cutoff), limit);
      TakenGrows(StaleSessions(base, cutoff), gone, batch, limit);
      UnlinkEventsKeepsRefs(db, batch);
      session.Execute(db.(events := UnlinkEvents(db.events, batch)));
      SessionBatches(base, gone, batch, cutoff);
      SessionBatches(base, gone + batch, {}, cutoff);
      BatchChildless(base, gone, StaleSessions(base, cutoff), batch);
      SessionBatched(base, batches, cutoff, limit, db, batch);
      DropSessionsKeepsRefs(db, batch);
      DropSessionsIs(db, batch);
      session.Execute(session.tables.(sessions := session.tables.sessions - batch));
      session.Commit();
      gone, batches := gone + batch, batches + [BatchSessions(batch)];
      deleted := deleted + |batch|;
    }
    assert gone == StaleSessions(base, cutoff);
  }

  method CleanBuckets(session: Session, cutoff: Time, limit: nat)
    returns (deleted: nat, ghost batches: seq<Batch>)
    requires 0 < limit && Integrity(session.tables) && session.durable == session.tables
    modifies session
    ensures session.tables == DropBuckets(old(session.tables), StaleBuckets(old(session.tables), cutoff))
    ensures deleted == |StaleBuckets(old(session.tables), cutoff)|
    ensures Batched(old(session.tables), batches, cutoff, limit, session.tables)
    ensures session.durable == session.tables && Integrity(session.tables)
    ensures old(session.trail) <= session.trail && SoundSince(session.trail, |old(session.trail)|)
  {
    hide Integrity, Batched, StaleBuckets, DropBuckets;
    ghost var base, start := session.tables, |session.trail|;
    ghost var gone: set<BucketKey> := {};
    NothingDropped(base);
    BucketBatches(base, gone, {}, cutoff);
    deleted, batches := 0, [];
    NoBatches(base, cutoff, limit);
    while StaleBuckets(session.tables, cutoff) != {}
      invariant gone <= StaleBuckets(base, cutoff) && deleted == |gone|
      invariant session.tables == DropBuckets(base, gone)
      invariant StaleBuckets(session.tables, cutoff) == StaleBuckets(base, cutoff) - gone
      invariant Batched(base, batches, cutoff, limit, session.tables)
      invariant session.durable == session.tables && Integrity(session.tables)
      invariant old(session.trail) <= session.trail && SoundSince(session.trail, start)
      decreases StaleBuckets(base, cutoff) - gone
    {
      var batch := Take(StaleBuckets(session.tables, cutoff), limit);
      TakenGrows(StaleBuckets(base, cutoff), gone, batch, limit);
      BucketBatched(base, batches, cutoff, limit, session.tables, batch);
      BucketBatches(base, gone, batch, cutoff);
      BucketBatches(base, gone + batch, {}, cutoff);
      DropBucketsKeepsRefs(session.tables, batch);
      session.Execute(DropBuckets(session.tables, batch));
      session.Commit();
      gone, batches := gone + batch, batches + [BatchBuckets(batch)];
      deleted := deleted + |batch|;
    }
    assert gone == StaleBuckets(base, cutoff);
  }

  lemma NothingDropped(db: Db)
    ensures DropAuths(db, {}) == db && DropCodes(db, {}) == db && DropTokens(db, {}) == db
    ensures DropSessions(db, {}) == db && DropBuckets(db, {}) == db
  {
    assert UnlinkMails(db.resetEmails, {}) == db.resetEmails && db.authSessions - {} == db.authSessions;
    assert UnlinkTokens(db.tokens, {}) == db.tokens && db.tokens - {} == db.tokens;
    assert UnlinkEvents(db.events, {}) == db.events && db.sessions - {} == db.sessions;
    assert db.codes - {} == db.codes && db.buckets - {} == db.buckets;
  }

  lemma DropAuthsIs(db: Db, gone: set<Id>)
    ensures db.(resetEmails := UnlinkMails(db.resetEmails, gone)).(authSessions := db.authSessions - gone)
            == DropAuths(db, gone)
  {}

  lemma DropTokensIs(db: Db, gone: set<Id>)
    ensures db.(tokens := UnlinkTokens(db.tokens, gone) - gone) == DropTokens(db, gone)
  {}

  lemma DropSessionsIs(db: Db, gone: set<Id>)
    ensures db.(events := UnlinkEvents(db.events, gone)).(sessions := db.sessions - gone) == DropSessions(db, gone)
  {}

  lemma UnlinkingTokensKeepsRefs(db: Db, gone: set<Id>)
    requires Integrity(db)
    ensures Integrity(db.(tokens := UnlinkTokens(db.tokens, gone)))
  {
    hide IdentityRefs, KeyTable, BucketTable, AuthTable, MailTable, EventTable, SessionTable, CodeTable,
         TokenTable, LinkTable, UnlinkTokens;
    UnlinkTokensSettles(db.tokens, gone);
    SettlingTokensKeepsRefs(db, UnlinkTokens(db.tokens, gone));
  }

  lemma BatchChildless(db: Db, gone: set<Id>, stale: set<Id>, batch: set<Id>)
    requires Childless(db, stale) && batch <= stale
    ensures Childless(DropSessions(db, gone), batch)
  {}

  // ---------------------------------------------------------------- the whole run

  /** What one table's loop leaves unchanged for the predicates of the later ones. */
  lemma StalenessLocal(db: Db, auths: set<Id>, codes: set<Id>, tokens: set<Id>, cutoff: Time)
    ensures StaleCodes(DropAuths(db, auths), cutoff) == StaleCodes(db, cutoff)
    ensures StaleTokens(DropCodes(DropAuths(db, auths), codes), cutoff) == StaleTokens(db, cutoff)
    ensures var t := DropTokens(DropCodes(DropAuths(db, auths), codes), tokens);
            StaleSessions(t, cutoff) == StaleSessions(db, cutoff)
  {
    hide UnlinkMails, UnlinkTokens, CodeStale, TokenStale, Expired;
  }

  lemma BucketsLast(db: Db, cutoff: Time)
    ensures var t := DropTokens(DropCodes(DropAuths(db, StaleAuths(db, cutoff)), StaleCodes(db, cutoff)),
                                StaleTokens(db, cutoff));
            var s := DropSessions(t, StaleSessions(db, cutoff));
            StaleBuckets(s, cutoff) == StaleBuckets(db, cutoff)
            && DropBuckets(s, StaleBuckets(db, cutoff)) == CleanupExpired(db, cutoff)
  {
    hide UnlinkMails, UnlinkTokens, UnlinkEvents, StaleAuths, StaleCodes, StaleTokens, StaleSessions;
  }

  /** `cleanup_expired`: whatever the batch size, the run ends in the one-shot
      filter of the state it started from, with exact counts; every statement
      keeps every foreign key and every batch is committed. */
  method CleanupRun(session: Session, now: Time, batchSize: int)
    returns (counts: Option<Counts>, ghost batches: seq<Batch>)
    requires Integrity(session.tables) && session.durable == session.tables
    modifies session
    ensures counts.Some? <==> 1 <= batchSize <= 1000
    ensures counts.None? ==> session.tables == session.durable == old(session.tables)
    ensures counts.Some? ==>
      && session.tables == session.durable == CleanupExpired(old(session.tables), now)
      && counts.value == Counts(|StaleAuths(old(session.tables), now)|, |StaleCodes(old(session.tables), now)|,
                                |StaleTokens(old(session.tables), now)|, |StaleSessions(old(session.tables), now)|,
                                |StaleBuckets(old(session.tables), now)|)
      && Batched(old(session.tables), batches, now, batchSize, session.tables)
    ensures old(session.trail) <= session.trail && SoundSince(session.trail, |old(session.trail)|)
  {
    hide Integrity, CleanupExpired, DropAuths, DropCodes, DropTokens, DropSessions, DropBuckets, StaleAuths,
         StaleCodes, StaleTokens, StaleSessions, StaleBuckets, Childless, CodeTable, TokenTable, Batched;
    batches := [];
    if batchSize < 1 || 1000 < batchSize {
      return None, [];
    }
    ghost var base := session.tables;
    ghost var more: seq<Batch>;
    StalenessLocal(base, StaleAuths(base, now), StaleCodes(base, now), StaleTokens(base, now), now);
    var auths;
    auths, batches := CleanAuths(session, now, batchSize);
    ghost var first := session.tables;
    ChildlessBeforeSessions(session.tables, now);
    var codes;
    codes, more := CleanCodes(session, now, batchSize);
    BatchedTogether(base, batches, first, more, session.tables, now, batchSize);
    ghost var second := session.tables;
    batches := batches + more;
    var tokens;
    tokens, more := CleanTokens(session, now, batchSize);
    BatchedTogether(base, batches, second, more, session.tables, now, batchSize);
    ghost var third := session.tables;
    batches := batches + more;
    StaleSessionsLocal(base, now);
    var sessions;
    sessions, more := CleanSessions(session, now, batchSize);
    BatchedTogether(base, batches, third, more, session.tables, now, batchSize);
    ghost var fourth := session.tables;
    batches := batches + more;
    BucketsLast(base, now);
    var buckets;
    buckets, more := CleanBuckets(session, now, batchSize);
    BatchedTogether(base, batches, fourth, more, session.tables, now, batchSize);
    batches := batches + more;
    counts := Some(Counts(auths, codes, tokens, sessions, buckets));
  }

  lemma ChildlessBeforeSessions(db: Db, cutoff: Time)
    requires Integrity(db)
    ensures Childless(DropTokens(DropCodes(db, StaleCodes(db, cutoff)), StaleTokens(db, cutoff)),
                      StaleSessions(db, cutoff))
  {
    hide IdentityRefs, KeyTable, BucketTable, AuthTable, MailTable, EventTable, SessionTable, CodeTable,
         TokenTable, LinkTable, Childless, DropTokens, DropCodes, StaleCodes, StaleTokens, StaleSessions;
    StaleLeavesChildless(db, cutoff);
  }

  lemma StaleSessionsLocal(db: Db, cutoff: Time)
    ensures StaleSessions(DropAuths(db, StaleAuths(db, cutoff)), cutoff) == StaleSessions(db, cutoff)
    ensures StaleTokens(DropAuths(db, StaleAuths(db, cutoff)), cutoff) == StaleTokens(db, cutoff)
  {
    hide UnlinkMails, TokenStale, Expired;
  }

  // ---------------------------------------------------------------- what a run keeps

  /** Exactly the stale rows go; audit and outbox rows stay, at most unlinked from a
      row that went. */
  lemma CleanupKeepsExactly(db: Db, cutoff: Time)
    ensures var clean := CleanupExpired(db, cutoff);
            && clean.authSessions == db.authSessions - StaleAuths(db, cutoff)
            && clean.codes == db.codes - StaleCodes(db, cutoff)
            && clean.tokens.Keys == db.tokens.Keys - StaleTokens(db, cutoff)
            && clean.sessions == db.sessions - StaleSessions(db, cutoff)
            && clean.buckets == db.buckets - StaleBuckets(db, cutoff)
            && clean.resetEmails.Keys == db.resetEmails.Keys && clean.events.Keys == db.events.Keys
            && clean.ids == db.ids && clean.keys == db.keys
            && (forall t | t in clean.tokens ::
                  clean.tokens[t] == db.tokens[t]
                  || (db.tokens[t].replacedBy.Some? && db.tokens[t].replacedBy.value in StaleTokens(db, cutoff)
                      && clean.tokens[t] == db.tokens[t].(replacedBy := None)))
  {
    StalenessLocal(db, StaleAuths(db, cutoff), StaleCodes(db, cutoff), StaleTokens(db, cutoff), cutoff);
    hide CodeStale, TokenStale, Expired;
  }

  /** Row by row: what is expired goes, with every token that is revoked and every code
      and token of a session that is revoked or expired; all the rest stays. */
  lemma SurvivesIff(db: Db, cutoff: Time)
    requires Integrity(db)
    ensures forall c | c in db.codes :: db.codes[c].session in db.sessions
    ensures forall t | t in db.tokens :: db.tokens[t].session in db.sessions
    ensures var clean := CleanupExpired(db, cutoff);
            && (forall s :: s in clean.sessions <==> s in db.sessions && !Expired(db.sessions[s], cutoff))
            && (forall c :: c in clean.codes <==>
                  c in db.codes && cutoff < db.codes[c].expiresAt && Live(db.sessions[db.codes[c].session], cutoff))
            && (forall t :: t in clean.tokens <==>
                  && t in db.tokens && cutoff < db.tokens[t].expiresAt && db.tokens[t].revokedAt.None?
                  && Live(db.sessions[db.tokens[t].session], cutoff))
            && (forall a :: a in clean.authSessions <==> a in db.authSessions && cutoff < db.authSessions[a].expiresAt)
            && (forall b :: b in clean.buckets <==> b in db.buckets && cutoff < db.buckets[b].expiresAt)
  {
    hide CleanupExpired, Expired, Integrity, StaleCodes, StaleTokens;
    CleanupKeepsExactly(db, cutoff);
    StaleRows(db, cutoff);
  }

  lemma StaleRows(db: Db, cutoff: Time)
    requires Integrity(db)
    ensures forall c | c in db.codes :: db.codes[c].session in db.sessions
    ensures forall t | t in db.tokens :: db.tokens[t].session in db.sessions
    ensures forall c | c in db.codes :: c !in StaleCodes(db, cutoff) <==>
      cutoff < db.codes[c].expiresAt && Live(db.sessions[db.codes[c].session], cutoff)
    ensures forall t | t in db.tokens :: t !in StaleTokens(db, cutoff) <==>
      && cutoff < db.tokens[t].expiresAt && db.tokens[t].revokedAt.None?
      && Live(db.sessions[db.tokens[t].session], cutoff)
  {
    hide IdentityRefs, KeyTable, BucketTable, AuthTable, MailTable, EventTable, SessionTable, LinkTable;
    assert forall c | c in db.codes :: CodeRefs(db.ids, db.sessions, db.codes[c]);
    assert forall t | t in db.tokens :: TokenRefs(db.ids, db.sessions, db.tokens[t]);
  }

  /** A second run at the same cutoff finds nothing. */
  lemma CleanupIdempotent(db: Db, cutoff: Time)
    requires Integrity(db)
    ensures var clean := CleanupExpired(db, cutoff);
            && StaleAuths(clean, cutoff) == {} && StaleCodes(clean, cutoff) == {} && StaleTokens(clean, cutoff) == {}
            && StaleSessions(clean, cutoff) == {} && StaleBuckets(clean, cutoff) == {}
            && CleanupExpired(clean, cutoff) == clean
  {
    hide CleanupExpired, Integrity, StaleAuths, StaleCodes, StaleTokens, StaleSessions, StaleBuckets;
    CleanedCodes(db, cutoff);
    CleanedTokens(db, cutoff);
    CleanedOthers(db, cutoff);
    CleaningNothing(CleanupExpired(db, cutoff), cutoff);
  }

  lemma CleanedOthers(db: Db, cutoff: Time)
    ensures var clean := CleanupExpired(db, cutoff);
            StaleAuths(clean, cutoff) == {} && StaleSessions(clean, cutoff) == {} && StaleBuckets(clean, cutoff) == {}
  {
    hide CleanupExpired, StaleCodes, StaleTokens;
    CleanupKeepsExactly(db, cutoff);
  }

  lemma CleanedCodes(db: Db, cutoff: Time)
    requires Integrity(db)
    ensures StaleCodes(CleanupExpired(db, cutoff), cutoff) == {}
  {
    CleanupKeepsExactly(db, cutoff);
    hide Integrity, CleanupExpired;
    var clean := CleanupExpired(db, cutoff);
    forall c | c in clean.codes ensures !CodeStale(clean.sessions, clean.codes[c], cutoff) {
      assert !CodeStale(db.sessions, db.codes[c], cutoff);
    }
  }

  lemma CleanedTokens(db: Db, cutoff: Time)
    requires Integrity(db)
    ensures StaleTokens(CleanupExpired(db, cutoff), cutoff) == {}
  {
    CleanupKeepsExactly(db, cutoff);
    hide Integrity, CleanupExpired;
    var clean := CleanupExpired(db, cutoff);
    forall t | t in clean.tokens ensures !TokenStale(clean.sessions, clean.tokens[t], cutoff) {
      assert !TokenStale(db.sessions, db.tokens[t], cutoff);
    }
  }

  lemma CleaningNothing(db: Db, cutoff: Time)
    requires StaleAuths(db, cutoff) == {} && StaleCodes(db, cutoff) == {} && StaleTokens(db, cutoff) == {}
    requires StaleSessions(db, cutoff) == {} && StaleBuckets(db, cutoff) == {}
    ensures CleanupExpired(db, cutoff) == db
  {
    hide StaleAuths, StaleCodes, StaleTokens, StaleSessions, StaleBuckets, DropAuths, DropCodes, DropTokens,
         DropSessions, DropBuckets;
    StalenessLocal(db, {}, {}, {}, cutoff);
    NothingDropped(db);
  }
}

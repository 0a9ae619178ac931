/** Sessions whose new owner no cleanup can change: conditions on the rows, to be checked
    before the deletion of a client. */
module SettledOwners {
  import opened Prelude
  import opened Tables
  import opened Protocol
  import opened Retention
  import opened Removal
  import opened Server
  import opened Observation
  import opened ClientDeletion
  import opened Invisibility

  // ---------------------------------------------------------------- the rows of a session

  /** The tokens of other clients that no cleanup at this time removes. */
  function KeptTokens(db: Db, s: Id, c: Id, now: Time): set<Id> {
    set t | t in OtherTokens(db.tokens, s, c) && !TokenStale(db.sessions, db.tokens[t], now)
  }

  function KeptCodes(db: Db, s: Id, c: Id, now: Time): set<Id> {
    set x | x in OtherCodes(db.codes, s, c) && !CodeStale(db.sessions, db.codes[x], now)
  }

  function TokenClients(db: Db, s: Id, c: Id): set<Id> {
    set t | t in OtherTokens(db.tokens, s, c) :: db.tokens[t].client
  }

  function CodeClients(db: Db, s: Id, c: Id): set<Id> {
    set x | x in OtherCodes(db.codes, s, c) :: db.codes[x].client
  }

  function KeptTokenClients(db: Db, s: Id, c: Id, now: Time): set<Id> {
    set t | t in KeptTokens(db, s, c, now) :: db.tokens[t].client
  }

  function KeptCodeClients(db: Db, s: Id, c: Id, now: Time): set<Id> {
    set x | x in KeptCodes(db, s, c, now) :: db.codes[x].client
  }

  lemma ClientsOfRows(db: Db, s: Id, c: Id, now: Time)
    ensures TokenClients(db, s, c) == {} <==> OtherTokens(db.tokens, s, c) == {}
    ensures CodeClients(db, s, c) == {} <==> OtherCodes(db.codes, s, c) == {}
    ensures KeptTokenClients(db, s, c, now) == {} <==> KeptTokens(db, s, c, now) == {}
    ensures KeptCodeClients(db, s, c, now) == {} <==> KeptCodes(db, s, c, now) == {}
    ensures KeptTokenClients(db, s, c, now) <= TokenClients(db, s, c)
    ensures KeptCodeClients(db, s, c, now) <= CodeClients(db, s, c)
  {
    hide TokenStale, CodeStale;
    if t :| t in OtherTokens(db.tokens, s, c) { assert db.tokens[t].client in TokenClients(db, s, c); }
    if x :| x in OtherCodes(db.codes, s, c) { assert db.codes[x].client in CodeClients(db, s, c); }
    if t :| t in KeptTokens(db, s, c, now) { assert db.tokens[t].client in KeptTokenClients(db, s, c, now); }
    if x :| x in KeptCodes(db, s, c, now) { assert db.codes[x].client in KeptCodeClients(db, s, c, now); }
  }

  lemma CandidatesSplit(db: Db, s: Id, c: Id)
    ensures Candidates(db.tokens, db.codes, s, c)
            == (if TokenClients(db, s, c) != {} then TokenClients(db, s, c) else CodeClients(db, s, c))
  {
    if TokenOfOther(db.tokens, s, c) {
      var t :| t in db.tokens && db.tokens[t].session == s && db.tokens[t].client != c;
      assert db.tokens[t].client in TokenClients(db, s, c);
    }
  }

  /** A similar database lacks at most stale rows of an unexpired session. */
  lemma RowsBetween(a: Db, b: Db, s: Id, c: Id, now: Time)
    requires Sim(a, b, now) && OwnedUnexpired(a, s, c, now)
    ensures KeptTokens(a, s, c, now) <= OtherTokens(b.tokens, s, c) <= OtherTokens(a.tokens, s, c)
    ensures KeptCodes(a, s, c, now) <= OtherCodes(b.codes, s, c) <= OtherCodes(a.codes, s, c)
    ensures forall t | t in OtherTokens(b.tokens, s, c) :: b.tokens[t].client == a.tokens[t].client
    ensures forall x | x in OtherCodes(b.codes, s, c) :: b.codes[x] == a.codes[x]
  {
    hide SessionsSim, AuthsSim, BucketsSim, Expired;
  }

  lemma ClientsBetween(a: Db, b: Db, s: Id, c: Id, now: Time)
    requires Sim(a, b, now) && OwnedUnexpired(a, s, c, now)
    ensures KeptTokenClients(a, s, c, now) <= TokenClients(b, s, c) <= TokenClients(a, s, c)
    ensures KeptCodeClients(a, s, c, now) <= CodeClients(b, s, c) <= CodeClients(a, s, c)
  {
    RowsBetween(a, b, s, c, now);
    hide Sim, OwnedUnexpired, OtherTokens, OtherCodes, KeptTokens, KeptCodes;
    forall o | o in KeptTokenClients(a, s, c, now) ensures o in TokenClients(b, s, c) {
      var t :| t in KeptTokens(a, s, c, now) && a.tokens[t].client == o;
      assert t in OtherTokens(b.tokens, s, c);
    }
    forall o | o in KeptCodeClients(a, s, c, now) ensures o in CodeClients(b, s, c) {
      var x :| x in KeptCodes(a, s, c, now) && a.codes[x].client == o;
      assert x in OtherCodes(b.codes, s, c);
    }
  }

  // ---------------------------------------------------------------- conditions on the rows

  /** The session has one possible owner and keeps it: all tokens of others belong to one
      client, which keeps a token or else has all the codes and keeps one; or there is no
      token and all codes belong to one client, which keeps one. */
  predicate StaysWithOne(db: Db, s: Id, c: Id, now: Time) {
    if OtherTokens(db.tokens, s, c) != {} then
      && |TokenClients(db, s, c)| == 1
      && (KeptTokens(db, s, c, now) != {}
          || KeptCodeClients(db, s, c, now) == CodeClients(db, s, c) == TokenClients(db, s, c))
    else |CodeClients(db, s, c)| == 1 && KeptCodes(db, s, c, now) != {}
  }

  /** None of the rows that name the new owner is stale. */
  predicate KeepsRows(db: Db, s: Id, c: Id, now: Time) {
    if OtherTokens(db.tokens, s, c) != {} then KeptTokens(db, s, c, now) == OtherTokens(db.tokens, s, c)
    else KeptCodes(db, s, c, now) == OtherCodes(db.codes, s, c)
  }

  /** No cleanup can change the new owners, whichever of its rows a query returns. */
  predicate OwnersSettled(db: Db, c: Id, now: Time) {
    forall s | s in db.sessions && OwnedUnexpired(db, s, c, now) ::
      KeepsRows(db, s, c, now) || StaysWithOne(db, s, c, now)
  }

  /** No cleanup can change the new owners, whatever a query returns. */
  predicate OwnersFixed(db: Db, c: Id, now: Time) {
    forall s | s in db.sessions && OwnedUnexpired(db, s, c, now) ::
      StaysWithOne(db, s, c, now) || OtherTokens(db.tokens, s, c) == OtherCodes(db.codes, s, c) == {}
  }

  /** No cleanup can change who may become an owner: every other client with a token
      keeps one, and if nobody has a token, every other client with a code keeps one;
      or the only client whose tokens all go is also the only one with a code, and keeps
      a code. */
  predicate SettledCandidates(db: Db, s: Id, c: Id, now: Time) {
    var tokens, kept := TokenClients(db, s, c), KeptTokenClients(db, s, c, now);
    var codes, keptCodes := CodeClients(db, s, c), KeptCodeClients(db, s, c, now);
    || (kept == tokens && (tokens == {} ==> keptCodes == codes))
    || (kept == {} && |tokens| == 1 && keptCodes == codes == tokens)
  }

  predicate CandidatesSettled(db: Db, c: Id, now: Time) {
    forall s | s in db.sessions && OwnedUnexpired(db, s, c, now) :: SettledCandidates(db, s, c, now)
  }

  // ---------------------------------------------------------------- they suffice

  lemma SubsetOfOne(x: set<Id>, y: set<Id>)
    requires x <= y && |y| == 1
    ensures x == {} || x == y
  {
    SingletonHasOne(y);
  }

  lemma OneStays(a: Db, b: Db, s: Id, c: Id, now: Time)
    requires Sim(a, b, now) && OwnedUnexpired(a, s, c, now) && StaysWithOne(a, s, c, now)
    ensures SameCandidate(a, b, s, c)
  {
    hide Sim, OwnedUnexpired, Candidates, TokenClients, CodeClients, KeptTokenClients, KeptCodeClients, KeptTokens,
         KeptCodes, OtherTokens, OtherCodes;
    ClientsBetween(a, b, s, c, now);
    CandidatesSplit(a, s, c);
    CandidatesSplit(b, s, c);
    ClientsOfRows(a, s, c, now);
    if OtherTokens(a.tokens, s, c) != {} { SubsetOfOne(TokenClients(b, s, c), TokenClients(a, s, c)); }
    else { SubsetOfOne(CodeClients(b, s, c), CodeClients(a, s, c)); }
  }

  lemma RowsStay(a: Db, b: Db, s: Id, c: Id, now: Time)
    requires Sim(a, b, now) && OwnedUnexpired(a, s, c, now) && KeepsRows(a, s, c, now)
    ensures SameRows(a, b, s, c)
  {
    hide Sim, OwnedUnexpired, KeptTokens, KeptCodes, OtherTokens, OtherCodes;
    RowsBetween(a, b, s, c, now);
  }

  lemma NothingStays(a: Db, b: Db, s: Id, c: Id, now: Time)
    requires Sim(a, b, now) && OwnedUnexpired(a, s, c, now)
    requires OtherTokens(a.tokens, s, c) == OtherCodes(a.codes, s, c) == {}
    ensures Candidates(b.tokens, b.codes, s, c) == Candidates(a.tokens, a.codes, s, c) == {}
  {
    hide Sim, OwnedUnexpired, KeptTokens, KeptCodes, OtherTokens, OtherCodes, Candidates, TokenClients, CodeClients,
         KeptTokenClients, KeptCodeClients;
    ClientsBetween(a, b, s, c, now);
    ClientsOfRows(a, s, c, now);
    CandidatesSplit(a, s, c);
    CandidatesSplit(b, s, c);
  }

  lemma SettledAgrees(a: Db, b: Db, c: Id, now: Time)
    requires Sim(a, b, now) && OwnersSettled(a, c, now)
    ensures OwnersAgree(a, b, c, now)
  {
    hide Sim, OwnedUnexpired, SameRows, SameCandidate, KeepsRows, StaysWithOne;
    forall s | OwnedUnexpired(a, s, c, now) ensures SameRows(a, b, s, c) || SameCandidate(a, b, s, c) {
      OwnedIsThere(a, s, c, now);
      if KeepsRows(a, s, c, now) { RowsStay(a, b, s, c, now); }
      else { OneStays(a, b, s, c, now); }
    }
  }

  lemma FixedAgrees(a: Db, b: Db, c: Id, now: Time)
    requires Sim(a, b, now) && OwnersFixed(a, c, now)
    ensures OwnersCertain(a, b, c, now)
  {
    hide Sim, OwnedUnexpired, SameCandidate, StaysWithOne, OtherTokens, OtherCodes, Candidates;
    forall s | OwnedUnexpired(a, s, c, now)
      ensures || Candidates(b.tokens, b.codes, s, c) == Candidates(a.tokens, a.codes, s, c) == {}
              || SameCandidate(a, b, s, c)
    {
      OwnedIsThere(a, s, c, now);
      if StaysWithOne(a, s, c, now) { OneStays(a, b, s, c, now); }
      else { NothingStays(a, b, s, c, now); }
    }
  }

  lemma CandidatesAgree(a: Db, b: Db, c: Id, now: Time)
    requires Sim(a, b, now) && CandidatesSettled(a, c, now)
    ensures SameCandidates(a, b, c, now)
  {
    hide Sim, OwnedUnexpired, Candidates, TokenClients, CodeClients, KeptTokenClients, KeptCodeClients;
    forall s | OwnedUnexpired(a, s, c, now)
      ensures Candidates(b.tokens, b.codes, s, c) == Candidates(a.tokens, a.codes, s, c)
    {
      OwnedIsThere(a, s, c, now);
      ClientsBetween(a, b, s, c, now);
      CandidatesSplit(a, s, c);
      CandidatesSplit(b, s, c);
      assert SettledCandidates(a, s, c, now);
      if |TokenClients(a, s, c)| == 1 { SubsetOfOne(TokenClients(b, s, c), TokenClients(a, s, c)); }
    }
  }

  // ---------------------------------------------------------------- cleanups that change the owners

  predicate Batches(pre: seq<Step>, now: Time) {
    forall i | 0 <= i < |pre| :: pre[i].request.RequestBatch? && pre[i].now == now
  }

  lemma {:induction false} BatchesSim(a: Db, b: Db, cfg: Config, pre: seq<Step>, now: Time)
    requires Sim(a, b, now) && Batches(pre, now)
    ensures Sim(a, Run(b, cfg, pre), now)
    decreases |pre|
  {
    hide Sim, Apply;
    if pre != [] {
      BatchStepSim(a, b, cfg, pre[0].request, now);
      BatchesSim(a, Apply(b, cfg, pre[0].request, now).0, cfg, pre[1..], now);
    }
  }

  function TokenBatch(gone: set<Id>, now: Time): Step { Step(RequestBatch(now, BatchTokens(gone)), now) }

  function CodeBatch(gone: set<Id>, now: Time): Step { Step(RequestBatch(now, BatchCodes(gone)), now) }

  lemma OneBatch(db: Db, cfg: Config, batch: Batch, now: Time)
    requires BatchFits(db, now, batch)
    ensures Run(db, cfg, [Step(RequestBatch(now, batch), now)]) == DropBatch(db, batch)
  {
    hide Apply, BatchFits, DropBatch;
    var steps := [Step(RequestBatch(now, batch), now)];
    BatchApplied(db, cfg, now, batch, now);
    RunCons(db, cfg, steps);
    RunNil(DropBatch(db, batch), cfg);
    assert steps[1..] == [];
  }

  lemma TwoBatches(db: Db, cfg: Config, first: Batch, second: Batch, now: Time)
    requires BatchFits(db, now, first) && BatchFits(DropBatch(db, first), now, second)
    ensures Run(db, cfg, [Step(RequestBatch(now, first), now), Step(RequestBatch(now, second), now)])
            == DropBatch(DropBatch(db, first), second)
  {
    hide Apply, BatchFits, DropBatch;
    var steps := [Step(RequestBatch(now, first), now), Step(RequestBatch(now, second), now)];
    BatchApplied(db, cfg, now, first, now);
    RunCons(db, cfg, steps);
    OneBatch(DropBatch(db, first), cfg, second, now);
    assert steps[1..] == [Step(RequestBatch(now, second), now)];
  }

  /** The stale tokens of session `s`, those of some clients spared. */
  function StaleTokensBut(db: Db, s: Id, spared: set<Id>, now: Time): set<Id> {
    set t | t in StaleTokens(db, now) && db.tokens[t].session == s && db.tokens[t].client !in spared
  }

  function SparedTokens(db: Db, s: Id, c: Id, spared: set<Id>): set<Id> {
    set t | t in OtherTokens(db.tokens, s, c) && db.tokens[t].client in spared
  }

  lemma TokensDropped(db: Db, s: Id, c: Id, spared: set<Id>, now: Time)
    ensures var b := DropTokens(db, StaleTokensBut(db, s, spared, now));
            && BatchFits(db, now, BatchTokens(StaleTokensBut(db, s, spared, now)))
            && OtherTokens(b.tokens, s, c) == KeptTokens(db, s, c, now) + SparedTokens(db, s, c, spared)
            && (forall t | t in OtherTokens(b.tokens, s, c) :: b.tokens[t].client == db.tokens[t].client)
            && b == db.(tokens := b.tokens)
  {
    hide TokenStale;
  }

  lemma CodesDropped(db: Db, s: Id, c: Id, now: Time)
    ensures var b := DropCodes(db, StaleCodes(db, now));
            && BatchFits(db, now, BatchCodes(StaleCodes(db, now)))
            && OtherCodes(b.codes, s, c) == KeptCodes(db, s, c, now)
            && (forall x | x in OtherCodes(b.codes, s, c) :: b.codes[x] == db.codes[x])
            && b == db.(codes := b.codes)
  {
    hide CodeStale;
  }

  /** The clients that are left after all stale tokens of the session but some are gone. */
  lemma TokenClientsDropped(db: Db, s: Id, c: Id, spared: set<Id>, now: Time)
    requires spared <= TokenClients(db, s, c)
    ensures var b := DropTokens(db, StaleTokensBut(db, s, spared, now));
            TokenClients(b, s, c) == KeptTokenClients(db, s, c, now) + spared
            && CodeClients(b, s, c) == CodeClients(db, s, c)
  {
    var b := DropTokens(db, StaleTokensBut(db, s, spared, now));
    TokensDropped(db, s, c, spared, now);
    hide TokenStale, DropTokens, StaleTokensBut;
    forall o | o in KeptTokenClients(db, s, c, now) + spared ensures o in TokenClients(b, s, c) {
      if o in spared {
        var t :| t in OtherTokens(db.tokens, s, c) && db.tokens[t].client == o;
        assert t in SparedTokens(db, s, c, spared);
        assert t in OtherTokens(b.tokens, s, c);
      } else {
        var t :| t in KeptTokens(db, s, c, now) && db.tokens[t].client == o;
        assert t in OtherTokens(b.tokens, s, c);
      }
    }
  }

  lemma CodeClientsDropped(db: Db, s: Id, c: Id, now: Time)
    ensures var b := DropCodes(db, StaleCodes(db, now));
            CodeClients(b, s, c) == KeptCodeClients(db, s, c, now) && TokenClients(b, s, c) == TokenClients(db, s, c)
  {
    var b := DropCodes(db, StaleCodes(db, now));
    CodesDropped(db, s, c, now);
    hide CodeStale, DropCodes, StaleCodes;
    forall o | o in KeptCodeClients(db, s, c, now) ensures o in CodeClients(b, s, c) {
      var x :| x in KeptCodes(db, s, c, now) && db.codes[x].client == o;
      assert x in OtherCodes(b.codes, s, c);
    }
  }

  lemma SameKeptCodes(a: Db, b: Db, s: Id, c: Id, now: Time)
    requires b == a.(tokens := b.tokens)
    ensures KeptCodes(b, s, c, now) == KeptCodes(a, s, c, now)
    ensures KeptCodeClients(b, s, c, now) == KeptCodeClients(a, s, c, now)
  {}

  /** The database after all stale tokens of the session are gone, and after all stale
      codes are gone as well, each reached by batches. */
  function WithoutTokens(db: Db, s: Id, now: Time): Db { DropTokens(db, StaleTokensBut(db, s, {}, now)) }

  function WithoutRows(db: Db, s: Id, now: Time): Db {
    DropCodes(WithoutTokens(db, s, now), StaleCodes(WithoutTokens(db, s, now), now))
  }

  function TokenCleanup(db: Db, s: Id, now: Time): seq<Step> { [TokenBatch(StaleTokensBut(db, s, {}, now), now)] }

  function RowCleanup(db: Db, s: Id, now: Time): seq<Step> {
    [TokenBatch(StaleTokensBut(db, s, {}, now), now), CodeBatch(StaleCodes(WithoutTokens(db, s, now), now), now)]
  }

  lemma CleanupsRun(db: Db, cfg: Config, s: Id, now: Time)
    ensures Batches(TokenCleanup(db, s, now), now) && Batches(RowCleanup(db, s, now), now)
    ensures Run(db, cfg, TokenCleanup(db, s, now)) == WithoutTokens(db, s, now)
    ensures Run(db, cfg, RowCleanup(db, s, now)) == WithoutRows(db, s, now)
  {
    TokensDropped(db, s, 0, {}, now);
    CodesDropped(WithoutTokens(db, s, now), s, 0, now);
    OneBatch(db, cfg, BatchTokens(StaleTokensBut(db, s, {}, now)), now);
    TwoBatches(db, cfg, BatchTokens(StaleTokensBut(db, s, {}, now)),
               BatchCodes(StaleCodes(WithoutTokens(db, s, now), now)), now);
    hide Run, StaleTokensBut, StaleCodes, DropTokens, DropCodes, BatchFits;
  }

  lemma CleanupsLeave(db: Db, s: Id, c: Id, now: Time)
    ensures var b := WithoutTokens(db, s, now);
            && OtherTokens(b.tokens, s, c) == KeptTokens(db, s, c, now)
            && TokenClients(b, s, c) == KeptTokenClients(db, s, c, now)
            && OtherCodes(b.codes, s, c) == OtherCodes(db.codes, s, c) && CodeClients(b, s, c) == CodeClients(db, s, c)
    ensures var z := WithoutRows(db, s, now);
            && OtherTokens(z.tokens, s, c) == KeptTokens(db, s, c, now)
            && TokenClients(z, s, c) == KeptTokenClients(db, s, c, now)
            && OtherCodes(z.codes, s, c) == KeptCodes(db, s, c, now)
            && CodeClients(z, s, c) == KeptCodeClients(db, s, c, now)
  {
    hide DropTokens, DropCodes, StaleTokensBut, StaleCodes, KeptTokens, KeptCodes, KeptTokenClients, KeptCodeClients,
         TokenClients, CodeClients, OtherTokens, OtherCodes, BatchFits;
    var b := WithoutTokens(db, s, now);
    TokensDropped(db, s, c, {}, now);
    NothingSpared(db, s, c);
    TokenClientsDropped(db, s, c, {}, now);
    CodesDropped(b, s, c, now);
    CodeClientsDropped(b, s, c, now);
    SameKeptCodes(db, b, s, c, now);
  }

  lemma NothingSpared(db: Db, s: Id, c: Id)
    ensures SparedTokens(db, s, c, {}) == {}
  {}

  /** Where there is one owner that may not stay, some cleanup takes it away. */
  lemma OneLeaves(db: Db, s: Id, c: Id, now: Time)
    requires |Candidates(db.tokens, db.codes, s, c)| == 1 && !StaysWithOne(db, s, c, now)
    ensures
      var b, z := WithoutTokens(db, s, now), WithoutRows(db, s, now);
      || (!SameRows(db, b, s, c) && !SameCandidate(db, b, s, c))
      || (!SameRows(db, z, s, c) && !SameCandidate(db, z, s, c))
  {
    hide WithoutTokens, WithoutRows, Candidates, TokenClients, CodeClients, KeptTokenClients, KeptCodeClients,
         KeptTokens, KeptCodes, OtherTokens, OtherCodes;
    CleanupsLeave(db, s, c, now);
    ClientsOfRows(db, s, c, now);
    CandidatesSplit(db, s, c);
    CandidatesSplit(WithoutTokens(db, s, now), s, c);
    CandidatesSplit(WithoutRows(db, s, now), s, c);
  }

  /** Where there is a choice among rows some of which are stale, a cleanup changes it. */
  lemma RowsLeave(db: Db, s: Id, c: Id, now: Time)
    requires |Candidates(db.tokens, db.codes, s, c)| != 1 && !KeepsRows(db, s, c, now)
    ensures
      var b, z := WithoutTokens(db, s, now), WithoutRows(db, s, now);
      || (!SameRows(db, b, s, c) && !SameCandidate(db, b, s, c))
      || (!SameRows(db, z, s, c) && !SameCandidate(db, z, s, c))
  {
    hide WithoutTokens, WithoutRows, Candidates, TokenClients, CodeClients, KeptTokenClients, KeptCodeClients,
         KeptTokens, KeptCodes, OtherTokens, OtherCodes;
    CleanupsLeave(db, s, c, now);
    ClientsOfRows(db, s, c, now);
  }

  lemma Disagreement(a: Db, b: Db, s: Id, c: Id, now: Time)
    requires OwnedUnexpired(a, s, c, now) && !SameRows(a, b, s, c) && !SameCandidate(a, b, s, c)
    ensures !OwnersAgree(a, b, c, now) && !OwnersCertain(a, b, c, now)
  {
    hide OwnedUnexpired, SameRows, SameCandidate, Candidates;
    if Candidates(b.tokens, b.codes, s, c) == Candidates(a.tokens, a.codes, s, c) == {} {
      NoRowsNoCandidates(a, b, s, c);
    }
  }

  /** Where a session is not settled, some batches change its rows and owner. */
  lemma UnsettledCleanup(db: Db, cfg: Config, s: Id, c: Id, now: Time) returns (pre: seq<Step>)
    requires OwnedUnexpired(db, s, c, now) && !StaysWithOne(db, s, c, now)
    requires |Candidates(db.tokens, db.codes, s, c)| == 1 || !KeepsRows(db, s, c, now)
    ensures Batches(pre, now)
    ensures !OwnersAgree(db, Run(db, cfg, pre), c, now) && !OwnersCertain(db, Run(db, cfg, pre), c, now)
  {
    hide OwnedUnexpired, SameRows, SameCandidate, Candidates, StaysWithOne, KeepsRows, WithoutTokens, WithoutRows,
         Run, Batches, OwnersAgree, OwnersCertain, TokenCleanup, RowCleanup;
    if |Candidates(db.tokens, db.codes, s, c)| == 1 { OneLeaves(db, s, c, now); }
    else { RowsLeave(db, s, c, now); }
    CleanupsRun(db, cfg, s, now);
    var b, z := WithoutTokens(db, s, now), WithoutRows(db, s, now);
    if !SameRows(db, b, s, c) && !SameCandidate(db, b, s, c) {
      pre := TokenCleanup(db, s, now);
      Disagreement(db, b, s, c, now);
    } else {
      pre := RowCleanup(db, s, now);
      Disagreement(db, z, s, c, now);
    }
  }

  /** No cleanup changes the rows or, where they belong to one client, the owner, if and
      only if the rows are settled. */
  lemma SettledIff(db: Db, cfg: Config, c: Id, now: Time)
    ensures (forall pre | Batches(pre, now) :: OwnersAgree(db, Run(db, cfg, pre), c, now))
            <==> OwnersSettled(db, c, now)
  {
    hide Sim, Run, StaysWithOne, KeepsRows, Batches, OwnersAgree, Candidates;
    if OwnersSettled(db, c, now) {
      forall pre | Batches(pre, now) ensures OwnersAgree(db, Run(db, cfg, pre), c, now) {
        SimItself(db, now);
        BatchesSim(db, db, cfg, pre, now);
        SettledAgrees(db, Run(db, cfg, pre), c, now);
      }
    } else {
      var s :| s in db.sessions && OwnedUnexpired(db, s, c, now)
               && !(KeepsRows(db, s, c, now) || StaysWithOne(db, s, c, now));
      var pre := UnsettledCleanup(db, cfg, s, c, now);
    }
  }

  lemma CandidatesCounted(db: Db, s: Id, c: Id, now: Time)
    requires |Candidates(db.tokens, db.codes, s, c)| == 0
    ensures OtherTokens(db.tokens, s, c) == OtherCodes(db.codes, s, c) == {}
  {
    CandidatesSplit(db, s, c);
    ClientsOfRows(db, s, c, now);
    hide Candidates, TokenClients, CodeClients;
  }

  /** Before and after every cleanup each session has the same owner to go to and no
      other, if and only if the rows say so. */
  lemma FixedIff(db: Db, cfg: Config, c: Id, now: Time)
    ensures (forall pre | Batches(pre, now) :: OwnersCertain(db, Run(db, cfg, pre), c, now))
            <==> OwnersFixed(db, c, now)
  {
    hide Sim, Run, StaysWithOne, OtherTokens, OtherCodes, OwnersCertain, Candidates, Batches;
    if OwnersFixed(db, c, now) {
      forall pre | Batches(pre, now) ensures OwnersCertain(db, Run(db, cfg, pre), c, now) {
        SimItself(db, now);
        BatchesSim(db, db, cfg, pre, now);
        FixedAgrees(db, Run(db, cfg, pre), c, now);
      }
    } else {
      var s :| s in db.sessions && OwnedUnexpired(db, s, c, now) && !StaysWithOne(db, s, c, now)
               && !(OtherTokens(db.tokens, s, c) == OtherCodes(db.codes, s, c) == {});
      if |Candidates(db.tokens, db.codes, s, c)| == 1 {
        var pre := UnsettledCleanup(db, cfg, s, c, now);
      } else {
        ManyUncertain(db, cfg, s, c, now);
      }
    }
  }

  lemma ManyUncertain(db: Db, cfg: Config, s: Id, c: Id, now: Time)
    requires OwnedUnexpired(db, s, c, now) && |Candidates(db.tokens, db.codes, s, c)| != 1
    requires !(OtherTokens(db.tokens, s, c) == OtherCodes(db.codes, s, c) == {})
    ensures Batches([], now) && !OwnersCertain(db, Run(db, cfg, []), c, now)
  {
    hide Candidates, OtherTokens, OtherCodes, OwnedUnexpired, Run;
    RunNil(db, cfg);
    if |Candidates(db.tokens, db.codes, s, c)| == 0 { CandidatesCounted(db, s, c, now); }
    assert !SameCandidate(db, db, s, c);
  }

  lemma TwoOwners(x: set<Id>, o: Id)
    requires |x| > 1 && o in x
    ensures {o} <= x && {o} != x
  {}

  /** Where the candidates are not settled, some batches change them. */
  lemma CandidatesCleanup(db: Db, cfg: Config, s: Id, c: Id, now: Time) returns (pre: seq<Step>)
    requires OwnedUnexpired(db, s, c, now) && !SettledCandidates(db, s, c, now)
    ensures Batches(pre, now)
    ensures var b := Run(db, cfg, pre);
            Candidates(b.tokens, b.codes, s, c) != Candidates(db.tokens, db.codes, s, c)
  {
    hide TokenClients, CodeClients, KeptTokenClients, KeptCodeClients, Candidates, StaleTokensBut, StaleCodes,
         DropTokens, DropCodes, BatchFits, Run, KeptTokens, KeptCodes, OtherTokens, OtherCodes;
    var tokens, kept := TokenClients(db, s, c), KeptTokenClients(db, s, c, now);
    ClientsOfRows(db, s, c, now);
    var spared: set<Id> := {};
    if kept == {} && |tokens| > 1 {
      var o :| o in tokens;
      spared := {o};
      TwoOwners(tokens, o);
    }
    var gone := StaleTokensBut(db, s, spared, now);
    var b := DropTokens(db, gone);
    TokensDropped(db, s, c, spared, now);
    TokenClientsDropped(db, s, c, spared, now);
    CandidatesSplit(db, s, c);
    CandidatesSplit(b, s, c);
    pre := [TokenBatch(gone, now)];
    OneBatch(db, cfg, BatchTokens(gone), now);
    if Candidates(b.tokens, b.codes, s, c) == Candidates(db.tokens, db.codes, s, c) {
      var z := DropCodes(b, StaleCodes(b, now));
      CodesDropped(b, s, c, now);
      CodeClientsDropped(b, s, c, now);
      CandidatesSplit(z, s, c);
      TwoBatches(db, cfg, BatchTokens(gone), BatchCodes(StaleCodes(b, now)), now);
      pre := [TokenBatch(gone, now), CodeBatch(StaleCodes(b, now), now)];
      SameKeptCodes(db, b, s, c, now);
      if |tokens| == 1 { SubsetOfOne(kept, tokens); }
    }
  }

  /** No cleanup changes the possible owners if and only if the candidates are settled. */
  lemma CandidatesSettledIff(db: Db, cfg: Config, c: Id, now: Time)
    ensures (forall pre | Batches(pre, now) :: SameCandidates(db, Run(db, cfg, pre), c, now))
            <==> CandidatesSettled(db, c, now)
  {
    hide Sim, Run, SettledCandidates, Candidates, Batches;
    if CandidatesSettled(db, c, now) {
      forall pre | Batches(pre, now) ensures SameCandidates(db, Run(db, cfg, pre), c, now) {
        SimItself(db, now);
        BatchesSim(db, db, cfg, pre, now);
        CandidatesAgree(db, Run(db, cfg, pre), c, now);
      }
    } else {
      var s :| s in db.sessions && OwnedUnexpired(db, s, c, now) && !SettledCandidates(db, s, c, now);
      var pre := CandidatesCleanup(db, cfg, s, c, now);
      assert !SameCandidates(db, Run(db, cfg, pre), c, now);
    }
  }
}

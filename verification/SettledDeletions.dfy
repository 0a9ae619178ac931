/** Deletions that no cleanup can change, in terms of replies and over whole runs. */
module SettledDeletions {
  import opened Prelude
  import opened Tables
  import opened Protocol
  import opened Invariants
  import opened Retention
  import opened Removal
  import opened Server
  import opened Observation
  import opened ClientDeletion
  import opened Invisibility
  import opened DeletionVisibility
  import opened SettledOwners

  // ---------------------------------------------------------------- in terms of replies only

  function Deletion(c: Id, pick: Pick, now: Time): Step { Step(RequestDeleteClient(c, pick), now) }

  lemma {:induction false} BatchesFirst(db: Db, cfg: Config, pre: seq<Step>, rest: seq<Step>, now: Time)
    requires Batches(pre, now)
    ensures Observed(db, cfg, pre + rest) == Observed(Run(db, cfg, pre), cfg, rest)
    decreases |pre|
  {
    hide Apply;
    if pre == [] {
      assert pre + rest == rest;
    } else {
      assert (pre + rest)[1..] == pre[1..] + rest;
      var after := Apply(db, cfg, pre[0].request, pre[0].now).0;
      BatchesFirst(after, cfg, pre[1..], rest, now);
      assert [] + Observed(after, cfg, pre[1..] + rest) == Observed(after, cfg, pre[1..] + rest);
    }
  }

  lemma DeletionObserved(db: Db, cfg: Config, c: Id, pick: Pick, later: seq<Step>, now: Time)
    requires c in db.ids.clients
    ensures Observed(db, cfg, [Deletion(c, pick, now)] + later) == [Done] + Observed(Deleted(db, c, pick), cfg, later)
  {
    hide Apply, RemoveClient, Deleted;
    var steps := [Deletion(c, pick, now)] + later;
    assert steps[1..] == later;
    RemovalApplied(db, cfg, RequestDeleteClient(c, pick), now);
    RemovalIs(db, RequestDeleteClient(c, pick));
  }

  lemma BatchesKeep(db: Db, cfg: Config, pre: seq<Step>, now: Time)
    requires Inv(db, now) && Batches(pre, now)
    ensures Sim(db, Run(db, cfg, pre), now) && Inv(Run(db, cfg, pre), now) && Run(db, cfg, pre).ids == db.ids
  {
    hide Sim, Inv, Run;
    SimItself(db, now);
    BatchesSim(db, db, cfg, pre, now);
    SameIdentities(db, Run(db, cfg, pre), now);
    AllAtOnce(pre, now);
    RunKeepsInv(db, cfg, pre, now);
    SameClock(pre, now);
  }

  lemma {:induction false} SameClock(steps: seq<Step>, now: Time)
    requires forall i | 0 <= i < |steps| :: steps[i].now == now
    ensures Clock(steps, now) == now
    decreases |steps|
  {
    if steps != [] { SameClock(steps[1..], now); }
  }

  /** Cleanup before the deletion of a client never changes a reply, client deletions
      later on apart, whichever of the matching rows a query returns. */
  ghost predicate CleanupHidden(db: Db, cfg: Config, c: Id, now: Time) {
    forall pre: seq<Step>, pick: Pick, later: seq<Step> ::
      Batches(pre, now) && Ordered(later, now) && NoClientDeletion(later) ==>
        Observed(db, cfg, pre + ([Deletion(c, pick, now)] + later))
        == Observed(db, cfg, [Deletion(c, pick, now)] + later)
  }

  /** The same, whatever the queries return on either database. */
  ghost predicate CleanupHiddenByAny(db: Db, cfg: Config, c: Id, now: Time) {
    forall pre: seq<Step>, pick: Pick, pick': Pick, later: seq<Step> ::
      Batches(pre, now) && Ordered(later, now) && NoClientDeletion(later) ==>
        Observed(db, cfg, pre + ([Deletion(c, pick', now)] + later))
        == Observed(db, cfg, [Deletion(c, pick, now)] + later)
  }

  /** The replies of two runs that begin with a deletion differ as those after it do. */
  lemma DeletionRuns(db: Db, cfg: Config, c: Id, pre: seq<Step>, pick: Pick, pick': Pick, later: seq<Step>, now: Time)
    requires c in db.ids.clients && Run(db, cfg, pre).ids == db.ids && Batches(pre, now)
    ensures Observed(db, cfg, pre + ([Deletion(c, pick', now)] + later))
            == Observed(db, cfg, [Deletion(c, pick, now)] + later)
            <==> Observed(Deleted(Run(db, cfg, pre), c, pick'), cfg, later)
                 == Observed(Deleted(db, c, pick), cfg, later)
  {
    hide Observed, Batches, Run, Deleted;
    var b := Run(db, cfg, pre);
    BatchesFirst(db, cfg, pre, [Deletion(c, pick', now)] + later, now);
    DeletionObserved(db, cfg, c, pick, later, now);
    DeletionObserved(b, cfg, c, pick', later, now);
    var x, y := Observed(Deleted(db, c, pick), cfg, later), Observed(Deleted(b, c, pick'), cfg, later);
    assert ([Done] + x)[1..] == x && ([Done] + y)[1..] == y;
  }

  lemma CleanedAlike(db: Db, cfg: Config, c: Id, pre: seq<Step>, now: Time)
    requires Inv(db, now) && BucketsOk(db.buckets, cfg, now) && cfg.Positive() && Batches(pre, now)
    ensures Unseen(db, Run(db, cfg, pre), cfg, c, now) <==> OwnersAgree(db, Run(db, cfg, pre), c, now)
    ensures UnseenByAny(db, Run(db, cfg, pre), cfg, c, now) <==> OwnersCertain(db, Run(db, cfg, pre), c, now)
    ensures Run(db, cfg, pre).ids == db.ids
  {
    hide Inv, BucketsOk, OwnersAgree, OwnersCertain, Batches, Unseen, UnseenByAny, Run, Sim;
    BatchesKeep(db, cfg, pre, now);
    UnseenIff(db, Run(db, cfg, pre), cfg, c, now);
    UnseenByAnyIff(db, Run(db, cfg, pre), cfg, c, now);
  }

  /** No cleanup before the deletion of a client can change a reply of any later run
      without client deletions, whichever matching rows the queries return, if and only
      if the rows of the client's sessions are settled: a condition to be read off the
      rows before the deletion. */
  lemma CleanupHiddenIff(db: Db, cfg: Config, c: Id, now: Time)
    requires Inv(db, now) && BucketsOk(db.buckets, cfg, now) && cfg.Positive() && c in db.ids.clients
    ensures CleanupHidden(db, cfg, c, now) <==> OwnersSettled(db, c, now)
  {
    hide Inv, BucketsOk, OwnersAgree, OwnersCertain, OwnersSettled, Observed, Batches, NoClientDeletion, Run, Ordered,
         Deleted;
    SettledIff(db, cfg, c, now);
    forall pre | Batches(pre, now)
      ensures Unseen(db, Run(db, cfg, pre), cfg, c, now) <==> OwnersAgree(db, Run(db, cfg, pre), c, now)
      ensures Run(db, cfg, pre).ids == db.ids
    {
      CleanedAlike(db, cfg, c, pre, now);
    }
    if OwnersSettled(db, c, now) {
      forall pre: seq<Step>, pick: Pick, later: seq<Step>
        | Batches(pre, now) && Ordered(later, now) && NoClientDeletion(later)
        ensures Observed(db, cfg, pre + ([Deletion(c, pick, now)] + later))
                == Observed(db, cfg, [Deletion(c, pick, now)] + later)
      {
        assert Alike(Deleted(db, c, pick), Deleted(Run(db, cfg, pre), c, pick), cfg, now);
        DeletionRuns(db, cfg, c, pre, pick, pick, later, now);
      }
    } else {
      var pre :| Batches(pre, now) && !OwnersAgree(db, Run(db, cfg, pre), c, now);
      var pick :| !Alike(Deleted(db, c, pick), Deleted(Run(db, cfg, pre), c, pick), cfg, now);
      var later := Told(db, Run(db, cfg, pre), cfg, c, pick, pick, now);
      DeletionRuns(db, cfg, c, pre, pick, pick, later, now);
    }
  }

  lemma Told(a: Db, b: Db, cfg: Config, c: Id, pick: Pick, pick': Pick, now: Time) returns (later: seq<Step>)
    requires !Alike(Deleted(a, c, pick), Deleted(b, c, pick'), cfg, now)
    ensures Ordered(later, now) && NoClientDeletion(later)
    ensures Observed(Deleted(b, c, pick'), cfg, later) != Observed(Deleted(a, c, pick), cfg, later)
  {
    hide Deleted, Observed, Ordered, NoClientDeletion;
    later :| Ordered(later, now) && NoClientDeletion(later)
             && Observed(Deleted(b, c, pick'), cfg, later) != Observed(Deleted(a, c, pick), cfg, later);
  }

  /** The same whatever the queries return, on the one and on the other database: if and
      only if each session has one possible owner before and after every cleanup. */
  lemma CleanupHiddenByAnyIff(db: Db, cfg: Config, c: Id, now: Time)
    requires Inv(db, now) && BucketsOk(db.buckets, cfg, now) && cfg.Positive() && c in db.ids.clients
    ensures CleanupHiddenByAny(db, cfg, c, now) <==> OwnersFixed(db, c, now)
  {
    hide Inv, BucketsOk, OwnersAgree, OwnersCertain, OwnersFixed, Observed, Batches, NoClientDeletion, Run, Ordered,
         Deleted;
    FixedIff(db, cfg, c, now);
    forall pre | Batches(pre, now)
      ensures UnseenByAny(db, Run(db, cfg, pre), cfg, c, now) <==> OwnersCertain(db, Run(db, cfg, pre), c, now)
      ensures Run(db, cfg, pre).ids == db.ids
    {
      CleanedAlike(db, cfg, c, pre, now);
    }
    if OwnersFixed(db, c, now) {
      forall pre: seq<Step>, pick: Pick, pick': Pick, later: seq<Step>
        | Batches(pre, now) && Ordered(later, now) && NoClientDeletion(later)
        ensures Observed(db, cfg, pre + ([Deletion(c, pick', now)] + later))
                == Observed(db, cfg, [Deletion(c, pick, now)] + later)
      {
        assert Alike(Deleted(db, c, pick), Deleted(Run(db, cfg, pre), c, pick'), cfg, now);
        DeletionRuns(db, cfg, c, pre, pick, pick', later, now);
      }
    } else {
      var pre :| Batches(pre, now) && !OwnersCertain(db, Run(db, cfg, pre), c, now);
      var pick: Pick, pick': Pick :| !Alike(Deleted(db, c, pick), Deleted(Run(db, cfg, pre), c, pick'), cfg, now);
      var later := Told(db, Run(db, cfg, pre), cfg, c, pick, pick', now);
      DeletionRuns(db, cfg, c, pre, pick, pick', later, now);
    }
  }

  /** What may follow the deletion, each outcome of the queries taken as possible, is the
      same after every cleanup, if and only if the candidates are settled. */
  lemma CleanupKeepsPossibilitiesIff(db: Db, cfg: Config, c: Id, now: Time)
    requires Inv(db, now) && BucketsOk(db.buckets, cfg, now) && cfg.Positive()
    ensures (forall pre, pick: Pick | Batches(pre, now) :: Possible(db, Run(db, cfg, pre), cfg, c, pick, now))
            <==> CandidatesSettled(db, c, now)
  {
    hide Inv, BucketsOk, Possible, SameCandidates, CandidatesSettled, Batches, Run, Sim;
    CandidatesSettledIff(db, cfg, c, now);
    forall pre | Batches(pre, now)
      ensures (forall pick: Pick :: Possible(db, Run(db, cfg, pre), cfg, c, pick, now))
              <==> SameCandidates(db, Run(db, cfg, pre), c, now)
    {
      BatchesKeep(db, cfg, pre, now);
      SamePossibilitiesIff(db, Run(db, cfg, pre), cfg, c, now);
    }
  }

  // ---------------------------------------------------------------- one cleanup

  /** The rows that name the new owner, and the possible owners, among those that a
      cleanup at this cutoff keeps. */
  function KeptRows(db: Db, s: Id, c: Id, cutoff: Time): Rows {
    if KeptTokens(db, s, c, cutoff) != {} then TokenRows(KeptTokens(db, s, c, cutoff))
    else CodeRows(KeptCodes(db, s, c, cutoff))
  }

  function KeptCandidates(db: Db, s: Id, c: Id, cutoff: Time): set<Id> {
    if KeptTokenClients(db, s, c, cutoff) != {} then KeptTokenClients(db, s, c, cutoff)
    else KeptCodeClients(db, s, c, cutoff)
  }

  /** One whole cleanup before the deletion changes no later reply, if and only if for
      each unexpired session of the client it keeps the rows that name the new owner, or
      all those before and after it belong to one client. */
  lemma DeletionSeesCleanupIff(db: Db, cfg: Config, c: Id, cutoff: Time, now: Time)
    requires Inv(db, now) && BucketsOk(db.buckets, cfg, now) && cfg.Positive() && cutoff <= now
    ensures Unseen(db, CleanupExpired(db, cutoff), cfg, c, now) <==>
      forall s | OwnedUnexpired(db, s, c, now) ::
        || KeptRows(db, s, c, cutoff) == Consulted(db.tokens, db.codes, s, c)
        || (KeptCandidates(db, s, c, cutoff) == Candidates(db.tokens, db.codes, s, c)
            && |Candidates(db.tokens, db.codes, s, c)| == 1)
  {
    hide BucketsOk, Unseen, Integrity, Run, CleanupSteps, CleanupExpired, FamiliesOk, RowsOk, KeysOk, Drawn, Sim,
         KeptRows, KeptCandidates, OwnedUnexpired, Batches, Candidates, Consulted;
    var clean := CleanupExpired(db, cutoff);
    CleanupIsBatches(db, cfg, cutoff, now);
    CleanupInBatches(db, cutoff, now);
    hide Inv;
    BatchesKeep(db, cfg, CleanupSteps(db, cutoff, now), now);
    UnseenIff(db, clean, cfg, c, now);
    forall s ensures Consulted(clean.tokens, clean.codes, s, c) == KeptRows(db, s, c, cutoff)
             ensures Candidates(clean.tokens, clean.codes, s, c) == KeptCandidates(db, s, c, cutoff)
    {
      CleanedCandidates(db, s, c, cutoff);
    }
  }

  lemma CleanedCandidates(db: Db, s: Id, c: Id, cutoff: Time)
    ensures var clean := CleanupExpired(db, cutoff);
            && Consulted(clean.tokens, clean.codes, s, c) == KeptRows(db, s, c, cutoff)
            && Candidates(clean.tokens, clean.codes, s, c) == KeptCandidates(db, s, c, cutoff)
  {
    hide CleanupExpired, KeptTokens, KeptCodes, OtherTokens, OtherCodes, TokenClients, CodeClients, KeptTokenClients,
         KeptCodeClients, Candidates;
    CandidatesSplit(CleanupExpired(db, cutoff), s, c);
    CleanedOthers(db, s, c, cutoff);
    CleanedClients(db, s, c, cutoff);
  }

  lemma CleanupInBatches(db: Db, cutoff: Time, now: Time)
    ensures Batches(CleanupSteps(db, cutoff, now), now)
  {
    hide StaleAuths, StaleCodes, StaleTokens, StaleSessions, StaleBuckets;
  }

  lemma CleanedRows(db: Db, cutoff: Time)
    ensures var clean := CleanupExpired(db, cutoff);
            && (forall t :: t in clean.tokens <==> t in db.tokens && !TokenStale(db.sessions, db.tokens[t], cutoff))
            && (forall t | t in clean.tokens ::
                  clean.tokens[t].session == db.tokens[t].session && clean.tokens[t].client == db.tokens[t].client)
            && (forall x :: x in clean.codes <==> x in db.codes && !CodeStale(db.sessions, db.codes[x], cutoff))
            && (forall x | x in clean.codes :: clean.codes[x] == db.codes[x])
  {
    hide UnlinkMails, UnlinkEvents, TokenStale, CodeStale;
  }

  lemma CleanedOthers(db: Db, s: Id, c: Id, cutoff: Time)
    ensures var clean := CleanupExpired(db, cutoff);
            && OtherTokens(clean.tokens, s, c) == KeptTokens(db, s, c, cutoff)
            && OtherCodes(clean.codes, s, c) == KeptCodes(db, s, c, cutoff)
            && (forall t | t in KeptTokens(db, s, c, cutoff) :: clean.tokens[t].client == db.tokens[t].client)
            && (forall x | x in KeptCodes(db, s, c, cutoff) :: clean.codes[x] == db.codes[x])
  {
    hide CleanupExpired, TokenStale, CodeStale;
    CleanedRows(db, cutoff);
  }

  lemma CleanedClients(db: Db, s: Id, c: Id, cutoff: Time)
    ensures TokenClients(CleanupExpired(db, cutoff), s, c) == KeptTokenClients(db, s, c, cutoff)
    ensures CodeClients(CleanupExpired(db, cutoff), s, c) == KeptCodeClients(db, s, c, cutoff)
  {
    hide CleanupExpired, TokenStale, CodeStale;
    CleanedOthers(db, s, c, cutoff);
  }

  // ---------------------------------------------------------------- whole runs

  /** Every client deletion of a run finds the rows of its sessions settled. */
  ghost predicate SettledRun(db: Db, cfg: Config, steps: seq<Step>)
    decreases |steps|
  {
    steps == []
    || (&& (steps[0].request.RequestDeleteClient? ==> OwnersSettled(db, steps[0].request.client, steps[0].now))
        && SettledRun(Apply(db, cfg, steps[0].request, steps[0].now).0, cfg, steps[1..]))
  }

  lemma {:induction false} SettledRunAgrees(a: Db, b: Db, cfg: Config, steps: seq<Step>, start: Time)
    requires Sim(a, b, start) && Inv(a, start) && BucketsOk(a.buckets, cfg, start) && cfg.Positive()
    requires Ordered(steps, start) && SettledRun(a, cfg, WithoutCleanup(steps))
    ensures DeletionsAgree(a, b, cfg, WithoutCleanup(steps), steps)
    decreases |steps|
  {
    hide Sim, Inv, BucketsOk, Apply, OwnersAgree, OwnersCertain, OwnersSettled;
    if steps != [] {
      var first, rest := steps[0], steps[1..];
      SimAdvances(a, b, start, first.now);
      ClockAdvances(a, start, first.now);
      BucketsLater(a.buckets, cfg, start, first.now);
      if first.request.RequestBatch? {
        BatchStepSim(a, b, cfg, first.request, first.now);
        assert [] + WithoutCleanup(rest) == WithoutCleanup(rest);
        SettledRunAgrees(a, Apply(b, cfg, first.request, first.now).0, cfg, rest, first.now);
      } else {
        assert ([first] + WithoutCleanup(rest))[1..] == WithoutCleanup(rest);
        if first.request.RequestDeleteClient? { SettledAgrees(a, b, first.request.client, first.now); }
        RequestsAgree(a, b, cfg, first.request, first.request, first.now);
        ApplyKeepsInv(a, cfg, first.request, first.now);
        StepKeepsBuckets(a, cfg, first.request, first.now, first.now);
        SettledRunAgrees(Apply(a, cfg, first.request, first.now).0, Apply(b, cfg, first.request, first.now).0, cfg,
                         rest, first.now);
      }
    }
  }

  /** If, without any cleanup, every client deletion would find settled rows, cleanup is
      unobservable: batches of any size and cutoff, anywhere in the run, change no reply. */
  lemma SettledRunsHideCleanup(db: Db, cfg: Config, steps: seq<Step>, start: Time)
    requires Inv(db, start) && BucketsOk(db.buckets, cfg, start) && cfg.Positive()
    requires Ordered(steps, start) && SettledRun(db, cfg, WithoutCleanup(steps))
    ensures Observed(db, cfg, steps) == Observed(db, cfg, WithoutCleanup(steps))
  {
    hide Sim, Inv, BucketsOk;
    SimItself(db, start);
    SettledRunAgrees(db, db, cfg, steps, start);
    CleanupUnobservable(db, cfg, steps, start);
  }

  /** Every client deletion of a run finds one possible owner at most for each session,
      one that no cleanup can change. */
  ghost predicate FixedRun(db: Db, cfg: Config, steps: seq<Step>)
    decreases |steps|
  {
    steps == []
    || (&& (steps[0].request.RequestDeleteClient? ==> OwnersFixed(db, steps[0].request.client, steps[0].now))
        && FixedRun(Apply(db, cfg, steps[0].request, steps[0].now).0, cfg, steps[1..]))
  }

  /** The same requests at the same times; the queries of a client deletion may return
      other rows. */
  ghost predicate SameRequests(x: seq<Step>, y: seq<Step>) {
    |x| == |y| && forall i | 0 <= i < |x| :: x[i].now == y[i].now && Repicked(x[i].request, y[i].request)
  }

  lemma {:induction false} FixedRunAgrees(a: Db, b: Db, cfg: Config, plain: seq<Step>, steps: seq<Step>, start: Time)
    requires Sim(a, b, start) && Inv(a, start) && BucketsOk(a.buckets, cfg, start) && cfg.Positive()
    requires Ordered(steps, start) && SameRequests(plain, WithoutCleanup(steps)) && FixedRun(a, cfg, plain)
    ensures DeletionsAgree(a, b, cfg, plain, steps)
    decreases |steps|
  {
    hide Sim, Inv, BucketsOk, Apply, OwnersAgree, OwnersCertain, OwnersFixed;
    if steps != [] {
      var first, rest := steps[0], steps[1..];
      SimAdvances(a, b, start, first.now);
      ClockAdvances(a, start, first.now);
      BucketsLater(a.buckets, cfg, start, first.now);
      if first.request.RequestBatch? {
        BatchStepSim(a, b, cfg, first.request, first.now);
        assert [] + WithoutCleanup(rest) == WithoutCleanup(rest);
        FixedRunAgrees(a, Apply(b, cfg, first.request, first.now).0, cfg, plain, rest, first.now);
      } else {
        assert WithoutCleanup(steps) == [first] + WithoutCleanup(rest);
        var other := plain[0];
        assert other.now == first.now && Repicked(other.request, first.request);
        if other.request.RequestDeleteClient? { FixedAgrees(a, b, other.request.client, first.now); }
        RequestsAgree(a, b, cfg, other.request, first.request, first.now);
        ApplyKeepsInv(a, cfg, other.request, first.now);
        StepKeepsBuckets(a, cfg, other.request, first.now, first.now);
        SameRest(plain, WithoutCleanup(steps));
        assert ([first] + WithoutCleanup(rest))[1..] == WithoutCleanup(rest);
        FixedRunAgrees(Apply(a, cfg, other.request, first.now).0, Apply(b, cfg, first.request, first.now).0, cfg,
                       plain[1..], rest, first.now);
      }
    }
  }

  lemma SameRest(x: seq<Step>, y: seq<Step>)
    requires SameRequests(x, y) && x != []
    ensures SameRequests(x[1..], y[1..])
  {
    hide Repicked;
  }

  /** If every client deletion would find one possible owner at most, which no cleanup
      can change, cleanup is unobservable even to a database that lets its choice of a
      row depend on what was cleaned. */
  lemma FixedRunsHideCleanup(db: Db, cfg: Config, plain: seq<Step>, steps: seq<Step>, start: Time)
    requires Inv(db, start) && BucketsOk(db.buckets, cfg, start) && cfg.Positive()
    requires Ordered(steps, start) && SameRequests(plain, WithoutCleanup(steps)) && FixedRun(db, cfg, plain)
    ensures Observed(db, cfg, steps) == Observed(db, cfg, plain)
  {
    hide Sim, Inv, BucketsOk, FixedRun, SameRequests;
    SimItself(db, start);
    FixedRunAgrees(db, db, cfg, plain, steps, start);
    SimilarRuns(db, db, cfg, plain, steps, start);
  }
}

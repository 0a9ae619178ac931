/** What the interleaved requests of RefreshRace come to: each one undisturbed is the
    atomic request, at whatever point the others stand, and over any interleaving the
    winners are exactly the tokens that were used. */
module RefreshAlone {
  import opened Prelude
  import opened RefreshRace

  // ---------------------------------------------------------------- who won

  predicate Used(t: Tables, x: Id) { x in t.tokens && t.tokens[x].used }

  lemma StepWins(st: State, action: Action)
    requires Ok(st)
    ensures var after := Next(st, action);
            && |st.winners| <= |after.winners| && after.winners[..|st.winners|] == st.winners
            && forall x :: Used(after.tables, x) <==> Used(st.tables, x) || x in after.winners[|st.winners|..]
  {
    if action.Commit? && action.actor in st.actors {
      PhaseHolds(st, action.actor);
    }
    hide LocksOk, FreshOk, WinnersOk, PhasesOk;
  }

  /** Over every interleaving a token has been used if and only if it was before, or it
      is the token of a winner. */
  lemma {:induction false} WinnersExact(st: State, actions: seq<Action>)
    requires Ok(st)
    ensures var after := Run(st, actions);
            && |st.winners| <= |after.winners| && after.winners[..|st.winners|] == st.winners
            && forall x :: Used(after.tables, x) <==> Used(st.tables, x) || x in after.winners[|st.winners|..]
    decreases |actions|
  {
    hide Ok, Next, Used;
    if actions != [] {
      var mid := Next(st, actions[0]);
      StepWins(st, actions[0]);
      NextKeepsOk(st, actions[0]);
      WinnersExact(mid, actions[1..]);
      var (n, after) := (|st.winners|, Run(st, actions));
      Parts(st.winners, mid.winners, after.winners);
    }
  }

  lemma Parts(a: seq<Id>, b: seq<Id>, c: seq<Id>)
    requires |a| <= |b| <= |c| && b[..|a|] == a && c[..|b|] == b
    ensures c[..|a|] == a && c[|a|..] == b[|a|..] + c[|b|..]
  {
    assert c == b + c[|b|..];
  }

  // ---------------------------------------------------------------- one request undisturbed

  /** A request that ends without a commit leaves nothing: its own writes, its locks and
      its place are gone, and nothing of any other request is. */
  lemma RollbackEffect(st: State, a: Id)
    ensures var after := Next(st, Rollback(a));
            && after.tables == st.tables && after.winners == st.winners && after.next == st.next
            && after.actors == st.actors - {a}
            && (a in st.actors ==>
                  forall s :: s in after.holder <==> s in st.holder && st.holder[s] != a)
            && forall s | s in after.holder :: after.holder[s] == st.holder[s]
  {
    if a !in st.actors { assert st.actors - {a} == st.actors; }
  }

  /** Nobody who is absent holds a lock. */
  lemma AbsentHoldsNothing(st: State, a: Id)
    requires Ok(st) && a !in st.actors
    ensures Done(st, a) == st
  {
    hide PhasesOk, FreshOk, WinnersOk;
    assert st.actors - {a} == st.actors;
    assert (map s | s in st.holder && st.holder[s] != a :: st.holder[s]) == st.holder;
  }

  /** Ending a request puts back what it took. */
  lemma Ended(st: State, a: Id, phase: Phase, of: Id)
    requires Ok(st) && a !in st.actors && of !in st.holder
    ensures Done(At(st, a, phase), a) == st
    ensures Done(At(st, a, phase).(holder := st.holder[of := a]), a) == st
  {
    AbsentHoldsNothing(st, a);
    var b := Done(At(st, a, phase).(holder := st.holder[of := a]), a);
    assert b.actors == st.actors && b.holder == st.holder;
    assert Done(At(st, a, phase), a).actors == st.actors;
    assert Done(At(st, a, phase), a).holder == st.holder;
    hide Ok;
  }

  /** The state while `a` stands at `phase` inside its lock, nothing else having moved. */
  function Inside(st: State, a: Id, phase: Phase): State {
    st.(actors := st.actors[a := phase], holder := st.holder[phase.of := a])
  }

  lemma TwoSteps(st: State, x: Action, y: Action)
    ensures Run(st, [x, y]) == Next(Next(st, x), y)
  {
    hide Next;
    assert [x, y][1..] == [y] && [y][1..] == [];
    assert Run(Next(st, x), [y]) == Run(Next(Next(st, x), y), []);
  }

  /** The first three statements of a refresh. */
  lemma Opening(st: State, a: Id, token: Id, first: bool, second: bool)
    requires Ok(st) && a !in st.actors
    requires token in st.tables.tokens && st.tables.tokens[token].session !in st.holder
    ensures var row := st.tables.tokens[token];
            Next(Next(Next(st, BeginRefresh(a, token)), Lock(a, first)), Reread(a, second)) ==
              if !(first && second && Live(st.tables, row.session) && !row.revoked) then st
              else if row.used then Inside(st, a, Revoking(row.session))
              else Inside(st, a, Matched(token, row.session))
  {
    var of := st.tables.tokens[token].session;
    var read := Next(st, BeginRefresh(a, token));
    assert read == At(st, a, Read(token, of));
    Ended(st, a, Read(token, of), of);
    var locked := Next(read, Lock(a, first));
    if first && Live(st.tables, of) {
      assert locked == Inside(st, a, Locked(token, of));
      Ended(st, a, Locked(token, of), of);
    }
    hide Ok;
  }

  /** The last three, from the match on. */
  lemma Closing(st: State, a: Id, token: Id, third: bool, fourth: bool)
    requires Ok(st) && a !in st.actors
    requires RefreshAllowed(st.tables, token) && st.tables.tokens[token].session !in st.holder
    ensures var at := Inside(st, a, Matched(token, st.tables.tokens[token].session));
            Next(Next(Next(at, Consume(a, third)), Issue(a, fourth)), Commit(a)) ==
              if third && fourth
              then st.(tables := AtomicRefresh(st.tables, token, st.next), winners := st.winners + [token],
                       next := st.next + 1)
              else st
  {
    hide Ok;
    var of := st.tables.tokens[token].session;
    var at := Inside(st, a, Matched(token, of));
    Ended(st, a, Matched(token, of), of);
    Ended(st, a, Consumed(token, of), of);
    if third {
      var consumed := Next(at, Consume(a, third));
      assert consumed == Inside(st, a, Consumed(token, of));
      if fourth {
        var issued := Next(consumed, Issue(a, fourth));
        assert issued == Inside(st, a, Issued(token, of, st.next)).(next := st.next + 1);
        Ended(st, a, Issued(token, of, st.next), of);
      }
    }
  }

  /** A refresh that no one disturbs redeems its token if and only if the token is stored,
      unused and unrevoked, its session is live, and all other checks pass; its commit is
      then the atomic refresh, and otherwise it leaves no trace. */
  lemma RefreshUndisturbed(st: State, a: Id, token: Id, first: bool, second: bool, third: bool, fourth: bool)
    requires Ok(st) && a !in st.actors
    requires token in st.tables.tokens ==> st.tables.tokens[token].session !in st.holder
    requires token in st.tables.tokens ==> !st.tables.tokens[token].used
    ensures Run(st, [BeginRefresh(a, token), Lock(a, first), Reread(a, second)]
                    + [Consume(a, third), Issue(a, fourth), Commit(a)]) ==
      if RefreshAllowed(st.tables, token) && first && second && third && fourth
      then st.(tables := AtomicRefresh(st.tables, token, st.next), winners := st.winners + [token],
               next := st.next + 1)
      else st
  {
    hide Next, Run, Ok;
    var (x, y) := ([BeginRefresh(a, token), Lock(a, first), Reread(a, second)],
                   [Consume(a, third), Issue(a, fourth), Commit(a)]);
    RunSplits(st, x, y);
    ThreeSteps(st, x[0], x[1], x[2]);
    ThreeSteps(Run(st, x), y[0], y[1], y[2]);
    NotBegun(st, a, x);
    NotBegun(st, a, y);
    if token in st.tables.tokens {
      Opening(st, a, token, first, second);
      if RefreshAllowed(st.tables, token) { Closing(st, a, token, third, fourth); }
    } else {
      NeverBegins(st, a, token);
    }
  }

  lemma NeverBegins(st: State, a: Id, token: Id)
    requires token !in st.tables.tokens
    ensures Next(st, BeginRefresh(a, token)) == st
  {}

  /** Statements of a request that is not there do nothing. */
  lemma NotBegun(st: State, a: Id, actions: seq<Action>)
    requires a !in st.actors
    ensures forall i | 0 <= i < |actions| && actions[i].actor == a
                       && !actions[i].BeginRefresh? && !actions[i].BeginRevoke? && !actions[i].ExchangeCheck? ::
      Next(st, actions[i]) == st
  {}

  /** Of a used token it is the atomic revocation of the session instead. */
  lemma ReuseUndisturbed(st: State, a: Id, token: Id, first: bool, second: bool)
    requires Ok(st) && a !in st.actors
    requires token in st.tables.tokens && st.tables.tokens[token].used
    requires st.tables.tokens[token].session !in st.holder
    ensures var row := st.tables.tokens[token];
            Run(st, [BeginRefresh(a, token), Lock(a, first), Reread(a, second)] + [Sweep(a), Commit(a)]) ==
              if first && second && Live(st.tables, row.session) && !row.revoked
              then st.(tables := AtomicRevoke(st.tables, row.session))
              else st
  {
    hide Next, Run, Ok;
    var x, y := [BeginRefresh(a, token), Lock(a, first), Reread(a, second)], [Sweep(a), Commit(a)];
    RunSplits(st, x, y);
    ThreeSteps(st, x[0], x[1], x[2]);
    TwoSteps(Run(st, x), y[0], y[1]);
    NotBegun(st, a, y);
    Opening(st, a, token, first, second);
    SweepAndCommit(st, a, st.tables.tokens[token].session);
  }

  /** The tokens of a session that a sweep finds. */
  function Found(t: Tables, s: Id): set<Id> {
    set x | x in t.tokens && t.tokens[x].session == s && !t.tokens[x].revoked
  }

  lemma FoundIsAll(st: State, s: Id)
    ensures Published(st, Swept(s, Found(st.tables, s))) == st.(tables := AtomicRevoke(st.tables, s))
  {
    assert Published(st, Swept(s, Found(st.tables, s))).tables.tokens == AtomicRevoke(st.tables, s).tokens;
  }

  lemma SweepAndCommit(st: State, a: Id, s: Id)
    requires Ok(st) && a !in st.actors && s !in st.holder
    ensures Next(Next(Inside(st, a, Revoking(s)), Sweep(a)), Commit(a))
            == st.(tables := AtomicRevoke(st.tables, s))
  {
    hide Ok, AtomicRevoke;
    var at := Next(Inside(st, a, Revoking(s)), Sweep(a));
    assert at == Inside(st, a, Swept(s, Found(st.tables, s)));
    Ended(st, a, Swept(s, Found(st.tables, s)), s);
    FoundIsAll(at, s);
    hide Published;
    assert Done(at, a) == st;
  }

  /** A revocation that no one disturbs is the atomic one. */
  lemma RevocationUndisturbed(st: State, a: Id, s: Id)
    requires Ok(st) && a !in st.actors && s !in st.holder
    ensures Run(st, [BeginRevoke(a, s), Sweep(a), Commit(a)]) ==
      if s in st.tables.revoked then st.(tables := AtomicRevoke(st.tables, s)) else st
  {
    ThreeSteps(st, BeginRevoke(a, s), Sweep(a), Commit(a));
    if s in st.tables.revoked {
      SweepAndCommit(st, a, s);
      assert Next(st, BeginRevoke(a, s)) == Inside(st, a, Revoking(s));
    }
    hide Next, Run, Ok;
  }

  /** An exchange that no one disturbs adds one token of its session if and only if both
      checks pass and the session is live. */
  lemma ExchangeUndisturbed(st: State, a: Id, s: Id, first: bool, second: bool)
    requires Ok(st) && a !in st.actors
    ensures Run(st, [ExchangeCheck(a, s, first), ExchangeIssue(a, second), Commit(a)]) ==
      if first && second && Live(st.tables, s)
      then st.(tables := st.tables.(tokens := st.tables.tokens[st.next := Row(s, false, false)]), next := st.next + 1)
      else st
  {
    hide Ok, Run;
    ThreeSteps(st, ExchangeCheck(a, s, first), ExchangeIssue(a, second), Commit(a));
    AbsentHoldsNothing(st, a);
    assert st.actors[a := Redeeming(s)] - {a} == st.actors;
    assert st.actors[a := Redeeming(s)][a := Redeemed(s, st.next)] - {a} == st.actors;
  }

  /** A refresh whose session is locked by another request waits where it is. */
  lemma LockWaits(st: State, a: Id, token: Id, allowed: bool)
    requires Ok(st) && a !in st.actors
    requires token in st.tables.tokens && st.tables.tokens[token].session in st.holder
    ensures var begun := Next(st, BeginRefresh(a, token));
            && begun == st.(actors := st.actors[a := Read(token, st.tables.tokens[token].session)])
            && Next(begun, Lock(a, allowed)) == begun
    ensures var s := st.tables.tokens[token].session; Next(st, BeginRevoke(a, s)) == st
  {
    hide Ok;
  }
}

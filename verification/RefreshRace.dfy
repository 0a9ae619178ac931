/** Refresh and revocation interleaved statement by statement.

    Each request is an actor with its own uncommitted writes; statements read what
    is committed, and the conditional update of the session row takes a lock that is
    held until commit or rollback. Only refreshes and revocations take it: a code
    exchange looks at the session twice, when it consumes the code and when it issues,
    and inserts and commits its token later. Checks that do not concern revocation or
    use (expiry, identities, claims, the code) are answered by an oracle. */
module RefreshRace {
  import opened Prelude

  datatype Row = Row(session: Id, used: bool, revoked: bool)

  /** The committed tables: which sessions are revoked, and the token rows. */
  datatype Tables = Tables(revoked: map<Id, bool>, tokens: map<Id, Row>)

  /** How far the transaction of an actor has come. */
  datatype Phase =
    | Read(token: Id, of: Id)
    | Locked(token: Id, of: Id)
    | Matched(token: Id, of: Id)
    | Consumed(token: Id, of: Id)
    | Issued(token: Id, of: Id, successor: Id)
    | Revoking(of: Id)
    | Swept(of: Id, swept: set<Id>)
    | Redeeming(of: Id)
    | Redeemed(of: Id, successor: Id)
  {
    /** Has taken the lock of its session. */
    predicate Holds() { !Read? && !Redeeming? && !Redeemed? }

    /** Has inserted a token row that is not committed yet. */
    predicate Inserts() { Issued? || Redeemed? }

    predicate Ready() { Inserts() || Swept? }
  }

  datatype State = State(tables: Tables, holder: map<Id, Id>, actors: map<Id, Phase>, winners: seq<Id>, next: Id)

  datatype Action =
    | BeginRefresh(actor: Id, token: Id)
    | Lock(actor: Id, allowed: bool)
    | Reread(actor: Id, allowed: bool)
    | Consume(actor: Id, allowed: bool)
    | Issue(actor: Id, allowed: bool)
    | BeginRevoke(actor: Id, session: Id)
    | Sweep(actor: Id)
    | Commit(actor: Id)
    | Rollback(actor: Id)
    | ExchangeCheck(actor: Id, session: Id, allowed: bool)
    | ExchangeIssue(actor: Id, allowed: bool)

  predicate Live(t: Tables, s: Id) { s in t.revoked && !t.revoked[s] }

  // ---------------------------------------------------------------- atomic specification

  /** One whole refresh, as a single step on the committed tables. */
  function AtomicRefresh(t: Tables, token: Id, successor: Id): Tables
    requires token in t.tokens
  {
    t.(tokens := t.tokens[token := t.tokens[token].(used := true)]
                         [successor := Row(t.tokens[token].session, false, false)])
  }

  predicate RefreshAllowed(t: Tables, token: Id) {
    && token in t.tokens && !t.tokens[token].used && !t.tokens[token].revoked
    && Live(t, t.tokens[token].session)
  }

  /** One whole revocation: the session and every one of its tokens. */
  function AtomicRevoke(t: Tables, s: Id): Tables {
    Tables(t.revoked[s := true],
           map x | x in t.tokens :: if t.tokens[x].session == s then t.tokens[x].(revoked := true) else t.tokens[x])
  }

  // ---------------------------------------------------------------- statements

  function Done(st: State, a: Id): State {
    st.(actors := st.actors - {a},
        holder := map s | s in st.holder && st.holder[s] != a :: st.holder[s])
  }

  function At(st: State, a: Id, phase: Phase): State { st.(actors := st.actors[a := phase]) }

  /** The writes of an actor become visible. */
  function Published(st: State, phase: Phase): State {
    match phase
    case Issued(token, of, successor) =>
      if token in st.tables.tokens
      then st.(tables := AtomicRefresh(st.tables, token, successor), winners := st.winners + [token])
      else st
    case Swept(of, swept) =>
      st.(tables := Tables(st.tables.revoked[of := true],
                           map x | x in st.tables.tokens ::
                             if x in swept then st.tables.tokens[x].(revoked := true) else st.tables.tokens[x]))
    case Redeemed(of, successor) =>
      st.(tables := st.tables.(tokens := st.tables.tokens[successor := Row(of, false, false)]))
    case _ => st
  }

  /** One statement of one actor. A statement that is not next in its request, or
      that would wait for a lock, changes nothing; a refused one rolls back. */
  function Next(st: State, action: Action): State {
    match action
    case BeginRefresh(a, token) =>
      if a in st.actors || token !in st.tables.tokens then st
      else At(st, a, Read(token, st.tables.tokens[token].session))
    case Lock(a, allowed) =>
      if a !in st.actors || !st.actors[a].Read? || st.actors[a].of in st.holder then st
      else if !allowed || !Live(st.tables, st.actors[a].of) then Done(st, a)
      else At(st, a, Locked(st.actors[a].token, st.actors[a].of)).(holder := st.holder[st.actors[a].of := a])
    case Reread(a, allowed) =>
      if a !in st.actors || !st.actors[a].Locked? then st
      else
        var (token, of) := (st.actors[a].token, st.actors[a].of);
        if !allowed || token !in st.tables.tokens || st.tables.tokens[token].revoked then Done(st, a)
        else if st.tables.tokens[token].used then At(st, a, Revoking(of))
        else At(st, a, Matched(token, of))
    case Consume(a, allowed) =>
      if a !in st.actors || !st.actors[a].Matched? then st
      else
        var (token, of) := (st.actors[a].token, st.actors[a].of);
        if !allowed || token !in st.tables.tokens || st.tables.tokens[token].used
           || st.tables.tokens[token].revoked then Done(st, a)
        else At(st, a, Consumed(token, of))
    case Issue(a, allowed) =>
      if a !in st.actors || !st.actors[a].Consumed? then st
      else if !allowed || !Live(st.tables, st.actors[a].of) then Done(st, a)
      else At(st, a, Issued(st.actors[a].token, st.actors[a].of, st.next)).(next := st.next + 1)
    case BeginRevoke(a, s) =>
      if a in st.actors || s !in st.tables.revoked || s in st.holder then st
      else At(st, a, Revoking(s)).(holder := st.holder[s := a])
    case Sweep(a) =>
      if a !in st.actors || !st.actors[a].Revoking? then st
      else
        var of := st.actors[a].of;
        At(st, a, Swept(of, set x | x in st.tables.tokens && st.tables.tokens[x].session == of
                                    && !st.tables.tokens[x].revoked))
    case Commit(a) =>
      if a !in st.actors || !st.actors[a].Ready() then st
      else Done(Published(st, st.actors[a]), a)
    case Rollback(a) => if a in st.actors then Done(st, a) else st
    case ExchangeCheck(a, s, allowed) =>
      if a in st.actors || !allowed || !Live(st.tables, s) then st else At(st, a, Redeeming(s))
    case ExchangeIssue(a, allowed) =>
      if a !in st.actors || !st.actors[a].Redeeming? then st
      else if !allowed || !Live(st.tables, st.actors[a].of) then Done(st, a)
      else At(st, a, Redeemed(st.actors[a].of, st.next)).(next := st.next + 1)
  }

  function Run(st: State, actions: seq<Action>): State
    decreases |actions|
  {
    if actions == [] then st else Run(Next(st, actions[0]), actions[1..])
  }

  // ---------------------------------------------------------------- invariants

  /** The lock of a session is held by exactly the actor that is inside it. */
  ghost predicate LocksOk(st: State) {
    && (forall a | a in st.actors && st.actors[a].Holds() ::
          st.actors[a].of in st.holder && st.holder[st.actors[a].of] == a)
    && (forall s | s in st.holder ::
          st.holder[s] in st.actors && st.actors[st.holder[s]].Holds() && st.actors[st.holder[s]].of == s)
  }

  /** What an actor inside the lock has checked still holds. */
  predicate PhaseOk(t: Tables, next: Id, phase: Phase) {
    match phase
    case Read(token, of) => token in t.tokens && t.tokens[token].session == of && of in t.revoked
    case Locked(token, of) => token in t.tokens && t.tokens[token].session == of && Live(t, of)
    case Matched(token, of) =>
      && token in t.tokens && t.tokens[token].session == of && Live(t, of)
      && !t.tokens[token].used && !t.tokens[token].revoked
    case Consumed(token, of) =>
      && token in t.tokens && t.tokens[token].session == of && Live(t, of)
      && !t.tokens[token].used && !t.tokens[token].revoked
    case Issued(token, of, successor) =>
      && token in t.tokens && t.tokens[token].session == of && Live(t, of)
      && !t.tokens[token].used && !t.tokens[token].revoked && successor < next && successor !in t.tokens
    case Revoking(of) => of in t.revoked
    case Swept(of, swept) =>
      of in t.revoked && forall x | x in swept :: x in t.tokens && t.tokens[x].session == of
    case Redeeming(of) => of in t.revoked
    case Redeemed(of, successor) => of in t.revoked && successor < next && successor !in t.tokens
  }

  ghost predicate PhasesOk(st: State) {
    forall a | a in st.actors :: PhaseOk(st.tables, st.next, st.actors[a])
  }

  /** Identifiers still to be inserted belong to one actor each. */
  ghost predicate FreshOk(st: State) {
    && (forall x | x in st.tables.tokens :: x < st.next && st.tables.tokens[x].session in st.tables.revoked)
    && (forall a, b | a in st.actors && b in st.actors && a != b && st.actors[a].Inserts() && st.actors[b].Inserts() ::
          st.actors[a].successor != st.actors[b].successor)
  }

  /** The winners are the used tokens, each once. */
  ghost predicate WinnersOk(st: State) {
    && (forall i | 0 <= i < |st.winners| ::
          st.winners[i] in st.tables.tokens && st.tables.tokens[st.winners[i]].used)
    && (forall i, j | 0 <= i < j < |st.winners| :: st.winners[i] != st.winners[j])
  }

  ghost predicate Ok(st: State) {
    LocksOk(st) && PhasesOk(st) && FreshOk(st) && WinnersOk(st)
  }

  /** The state before any request. */
  predicate Initial(st: State) {
    && st.holder == map[] && st.actors == map[] && st.winners == []
    && forall x | x in st.tables.tokens :: x < st.next && st.tables.tokens[x].session in st.tables.revoked
  }

  lemma InitialOk(st: State)
    requires Initial(st)
    ensures Ok(st)
  {}

  lemma DoneKeepsOk(st: State, a: Id)
    requires Ok(st) && a in st.actors
    ensures Ok(Done(st, a))
  {}

  /** Moving one actor on, inside the lock it already holds. */
  lemma AtKeepsOk(st: State, a: Id, phase: Phase, n: nat)
    requires Ok(st) && a in st.actors && phase.of == st.actors[a].of && n <= 1
    requires st.actors[a].Holds() <==> phase.Holds()
    requires PhaseOk(st.tables, st.next + n, phase)
    requires phase.Inserts() ==> phase.successor == st.next && n == 1
    ensures Ok(At(st, a, phase).(next := st.next + n))
  {}

  lemma TakeLockKeepsOk(st: State, a: Id, phase: Phase)
    requires Ok(st) && phase.of !in st.holder && phase.Holds() && !phase.Inserts()
    requires PhaseOk(st.tables, st.next, phase)
    requires a in st.actors ==> !st.actors[a].Holds()
    ensures Ok(At(st, a, phase).(holder := st.holder[phase.of := a]))
  {}

  lemma BeginKeepsOk(st: State, a: Id, token: Id)
    requires Ok(st) && a !in st.actors && token in st.tables.tokens
    ensures Ok(At(st, a, Read(token, st.tables.tokens[token].session)))
  {}

  /** A commit of one actor leaves what every other actor has checked. */
  lemma PublishedPhases(st: State, a: Id, b: Id)
    requires Ok(st) && a in st.actors && b in st.actors && a != b
    requires st.actors[a].Ready()
    ensures PhaseOk(Published(st, st.actors[a]).tables, st.next, st.actors[b])
  {
    if st.actors[a].Holds() && st.actors[b].Holds() {
      assert st.actors[a].of != st.actors[b].of;
    }
    assert PhaseOk(st.tables, st.next, st.actors[a]);
  }

  lemma CommitKeepsOk(st: State, a: Id)
    requires Ok(st) && a in st.actors && st.actors[a].Ready()
    ensures Ok(Done(Published(st, st.actors[a]), a))
  {
    var after := Done(Published(st, st.actors[a]), a);
    assert PhaseOk(st.tables, st.next, st.actors[a]);
    forall b | b in after.actors ensures PhaseOk(after.tables, after.next, after.actors[b]) {
      PublishedPhases(st, a, b);
    }
    assert LocksOk(after) && FreshOk(after);
  }

  lemma CheckKeepsOk(st: State, a: Id, s: Id)
    requires Ok(st) && a !in st.actors && s in st.tables.revoked
    ensures Ok(At(st, a, Redeeming(s)))
  {}

  lemma NextKeepsOk(st: State, action: Action)
    requires Ok(st)
    ensures Ok(Next(st, action))
  {
    hide Ok, PhaseOk;
    match action
    case BeginRefresh(a, token) =>
      if a !in st.actors && token in st.tables.tokens { BeginKeepsOk(st, a, token); }
    case ExchangeCheck(a, s, allowed) =>
      if a !in st.actors && Live(st.tables, s) { CheckKeepsOk(st, a, s); }
    case Commit(a) =>
      if a in st.actors && st.actors[a].Ready() { CommitKeepsOk(st, a); }
    case Rollback(a) => if a in st.actors { DoneKeepsOk(st, a); }
    case BeginRevoke(a, s) =>
      if a !in st.actors && s in st.tables.revoked && s !in st.holder {
        RevokingOk(st, s);
        TakeLockKeepsOk(st, a, Revoking(s));
      }
    case _ => ActorStepKeepsOk(st, action);
  }

  lemma RevokingOk(st: State, s: Id)
    requires s in st.tables.revoked
    ensures PhaseOk(st.tables, st.next, Revoking(s))
  {}

  lemma ActorStepKeepsOk(st: State, action: Action)
    requires Ok(st)
    requires action.Lock? || action.Reread? || action.Consume? || action.Issue? || action.Sweep?
             || action.ExchangeIssue?
    ensures Ok(Next(st, action))
  {
    hide Ok, Next;
    match action
    case Lock(a, allowed) => LockKeepsOk(st, a, allowed);
    case Reread(a, allowed) => RereadKeepsOk(st, a, allowed);
    case Consume(a, allowed) => ConsumeKeepsOk(st, a, allowed);
    case Issue(a, allowed) => IssueKeepsOk(st, a, allowed);
    case Sweep(a) => SweepKeepsOk(st, a);
    case ExchangeIssue(a, allowed) => ExchangeIssueKeepsOk(st, a, allowed);
    case _ =>
  }

  lemma PhaseHolds(st: State, a: Id)
    requires Ok(st) && a in st.actors
    ensures PhaseOk(st.tables, st.next, st.actors[a])
  {
    hide LocksOk, FreshOk, WinnersOk, PhaseOk;
  }

  lemma LockKeepsOk(st: State, a: Id, allowed: bool)
    requires Ok(st)
    ensures Ok(Next(st, Lock(a, allowed)))
  {
    hide Ok;
    if a in st.actors && st.actors[a].Read? {
      PhaseHolds(st, a);
      DoneKeepsOk(st, a);
      if st.actors[a].of !in st.holder && Live(st.tables, st.actors[a].of) {
        TakeLockKeepsOk(st, a, Locked(st.actors[a].token, st.actors[a].of));
      }
    }
  }

  lemma RereadKeepsOk(st: State, a: Id, allowed: bool)
    requires Ok(st)
    ensures Ok(Next(st, Reread(a, allowed)))
  {
    hide Ok;
    if a in st.actors && st.actors[a].Locked? {
      PhaseHolds(st, a);
      DoneKeepsOk(st, a);
      assert st.(next := st.next + 0) == st;
      var phase := st.actors[a];
      if st.tables.tokens[phase.token].used { AtKeepsOk(st, a, Revoking(phase.of), 0); }
      else if !st.tables.tokens[phase.token].revoked { AtKeepsOk(st, a, Matched(phase.token, phase.of), 0); }
    }
  }

  lemma ConsumeKeepsOk(st: State, a: Id, allowed: bool)
    requires Ok(st)
    ensures Ok(Next(st, Consume(a, allowed)))
  {
    hide Ok;
    if a in st.actors && st.actors[a].Matched? {
      PhaseHolds(st, a);
      DoneKeepsOk(st, a);
      AtKeepsOk(st, a, Consumed(st.actors[a].token, st.actors[a].of), 0);
    }
  }

  lemma IssueKeepsOk(st: State, a: Id, allowed: bool)
    requires Ok(st)
    ensures Ok(Next(st, Issue(a, allowed)))
  {
    hide Ok, PhaseOk;
    if a in st.actors && st.actors[a].Consumed? {
      DoneKeepsOk(st, a);
      IssuedOk(st, a);
      AtKeepsOk(st, a, Issued(st.actors[a].token, st.actors[a].of, st.next), 1);
    }
  }

  lemma ExchangeIssueKeepsOk(st: State, a: Id, allowed: bool)
    requires Ok(st)
    ensures Ok(Next(st, ExchangeIssue(a, allowed)))
  {
    hide Ok, PhaseOk;
    if a in st.actors && st.actors[a].Redeeming? {
      DoneKeepsOk(st, a);
      RedeemedOk(st, a);
      AtKeepsOk(st, a, Redeemed(st.actors[a].of, st.next), 1);
    }
  }

  lemma RedeemedOk(st: State, a: Id)
    requires Ok(st) && a in st.actors && st.actors[a].Redeeming?
    ensures PhaseOk(st.tables, st.next + 1, Redeemed(st.actors[a].of, st.next))
  {
    assert PhaseOk(st.tables, st.next, st.actors[a]);
  }

  lemma SweepKeepsOk(st: State, a: Id)
    requires Ok(st)
    ensures Ok(Next(st, Sweep(a)))
  {
    hide Ok;
    if a in st.actors && st.actors[a].Revoking? {
      PhaseHolds(st, a);
      var of := st.actors[a].of;
      AtKeepsOk(st, a, Swept(of, set x | x in st.tables.tokens && st.tables.tokens[x].session == of
                                         && !st.tables.tokens[x].revoked), 0);
    }
  }

  lemma IssuedOk(st: State, a: Id)
    requires Ok(st) && a in st.actors && st.actors[a].Consumed?
    ensures PhaseOk(st.tables, st.next + 1, Issued(st.actors[a].token, st.actors[a].of, st.next))
  {
    assert PhaseOk(st.tables, st.next, st.actors[a]);
  }

  lemma {:induction false} RunKeepsOk(st: State, actions: seq<Action>)
    requires Ok(st)
    ensures Ok(Run(st, actions))
    decreases |actions|
  {
    hide Ok, Next;
    if actions != [] {
      NextKeepsOk(st, actions[0]);
      RunKeepsOk(Next(st, actions[0]), actions[1..]);
    }
  }

  // ---------------------------------------------------------------- main results

  /** In every interleaving each refresh token has at most one committed winner. */
  lemma OneWinnerPerToken(st: State, actions: seq<Action>)
    requires Initial(st)
    ensures var winners := Run(st, actions).winners;
            forall i, j | 0 <= i < j < |winners| :: winners[i] != winners[j]
  {
    InitialOk(st);
    RunKeepsOk(st, actions);
  }

  /** A committed refresh is the atomic one: at its commit the token is still
      unused and unrevoked and the session still live. */
  lemma RefreshCommitsAtomically(st: State, a: Id)
    requires Ok(st) && a in st.actors && st.actors[a].Issued?
    ensures RefreshAllowed(st.tables, st.actors[a].token)
    ensures Next(st, Commit(a)).tables == AtomicRefresh(st.tables, st.actors[a].token, st.actors[a].successor)
  {
    assert PhaseOk(st.tables, st.next, st.actors[a]);
  }

  /** A revoked session stays revoked, and no refresh of its tokens commits. */
  lemma RevokedStepStays(st: State, action: Action, s: Id)
    requires Ok(st) && s in st.tables.revoked && st.tables.revoked[s]
    ensures var after := Next(st, action);
            && s in after.tables.revoked && after.tables.revoked[s]
            && (after.winners == st.winners
                || (|after.winners| == |st.winners| + 1 && after.winners[..|st.winners|] == st.winners
                    && var t := after.winners[|st.winners|];
                    t in st.tables.tokens && st.tables.tokens[t].session != s))
            && (forall x | x in st.tables.tokens ::
                  x in after.tables.tokens && after.tables.tokens[x].session == st.tables.tokens[x].session)
  {
    if action.Commit? && action.actor in st.actors {
      assert PhaseOk(st.tables, st.next, st.actors[action.actor]);
    }
  }

  /** Once a revocation has committed, no refresh of any token of that session
      succeeds in any continuation. */
  lemma {:induction false} NoRefreshAfterRevocation(st: State, actions: seq<Action>, s: Id)
    requires Ok(st) && s in st.tables.revoked && st.tables.revoked[s]
    ensures var after := Run(st, actions);
            && |st.winners| <= |after.winners| && after.winners[..|st.winners|] == st.winners
            && (forall i | |st.winners| <= i < |after.winners| ::
                  after.winners[i] in after.tables.tokens && after.tables.tokens[after.winners[i]].session != s)
            && (forall x | x in st.tables.tokens ::
                  x in after.tables.tokens && after.tables.tokens[x].session == st.tables.tokens[x].session)
    decreases |actions|
  {
    hide Ok, Next;
    if actions != [] {
      var mid := Next(st, actions[0]);
      RevokedStepStays(st, actions[0], s);
      NextKeepsOk(st, actions[0]);
      NoRefreshAfterRevocation(mid, actions[1..], s);
      var after := Run(st, actions);
      assert after.winners[..|st.winners|] == after.winners[..|mid.winners|][..|st.winners|];
      if |mid.winners| == |st.winners| + 1 {
        assert after.winners[|st.winners|] == after.winners[..|mid.winners|][|st.winners|];
      }
    }
  }

  // ---------------------------------------------------------------- complete revocation

  /** No unrevoked token of a revoked session exists, and every revocation that has
      swept will revoke all that is there. */
  ghost predicate Complete(st: State) {
    && (forall x | x in st.tables.tokens && !st.tables.tokens[x].revoked ::
          Live(st.tables, st.tables.tokens[x].session))
    && (forall a | a in st.actors && st.actors[a].Swept? ::
          forall x | x in st.tables.tokens && st.tables.tokens[x].session == st.actors[a].of
                     && !st.tables.tokens[x].revoked :: x in st.actors[a].swept)
  }

  /** A revocation of the session has swept but not committed. */
  predicate SweptOpen(st: State, s: Id) {
    s in st.holder && st.holder[s] in st.actors && st.actors[st.holder[s]].Swept?
  }

  /** The commit of an exchange is quiet if its session is not revoked and no
      revocation of it is between its sweep and its commit. */
  predicate Quiet(st: State, action: Action) {
    action.Commit? && action.actor in st.actors && st.actors[action.actor].Redeemed? ==>
      Live(st.tables, st.actors[action.actor].of) && !SweptOpen(st, st.actors[action.actor].of)
  }

  /** Revocation is the atomic one as well: it reaches every token of the session. */
  lemma RevocationCommitsAtomically(st: State, a: Id)
    requires Ok(st) && Complete(st) && a in st.actors && st.actors[a].Swept?
    ensures Next(st, Commit(a)).tables == AtomicRevoke(st.tables, st.actors[a].of)
  {
    assert PhaseOk(st.tables, st.next, st.actors[a]);
    var of, swept := st.actors[a].of, st.actors[a].swept;
    var x, y := Published(st, st.actors[a]).tables, AtomicRevoke(st.tables, of);
    assert x.tokens == y.tokens;
  }

  lemma CommitKeepsComplete(st: State, a: Id)
    requires Ok(st) && Complete(st) && a in st.actors && (st.actors[a].Issued? || st.actors[a].Swept?)
    ensures Complete(Next(st, Commit(a)))
  {
    assert PhaseOk(st.tables, st.next, st.actors[a]);
    forall b | b in st.actors && b != a && st.actors[b].Swept? ensures st.actors[b].of != st.actors[a].of {}
    if st.actors[a].Swept? { RevocationCommitsAtomically(st, a); }
    else { RefreshCommitsAtomically(st, a); }
  }

  /** The commit of a code exchange keeps revocation complete if and only if it is
      quiet. */
  lemma ExchangeCompleteIff(st: State, a: Id)
    requires Ok(st) && Complete(st) && a in st.actors && st.actors[a].Redeemed?
    ensures Complete(Next(st, Commit(a))) <==> Quiet(st, Commit(a))
  {
    var after := Next(st, Commit(a));
    var (s, row) := (st.actors[a].of, st.actors[a].successor);
    assert PhaseOk(st.tables, st.next, st.actors[a]);
    assert row in after.tables.tokens && after.tables.tokens[row] == Row(s, false, false);
    if SweptOpen(st, s) {
      var b := st.holder[s];
      assert PhaseOk(st.tables, st.next, st.actors[b]);
      assert b in after.actors && after.actors[b].Swept? && row !in after.actors[b].swept;
    } else {
      forall b | b in st.actors && st.actors[b].Swept? ensures st.actors[b].of != s {}
    }
  }

  /** A revocation of the session commits somewhere in the run. */
  predicate RevocationCommits(st: State, actions: seq<Action>, s: Id)
    decreases |actions|
  {
    actions != []
    && ((actions[0].Commit? && actions[0].actor in st.actors
         && st.actors[actions[0].actor].Swept? && st.actors[actions[0].actor].of == s)
        || RevocationCommits(Next(st, actions[0]), actions[1..], s))
  }

  lemma StepRevokes(st: State, action: Action, s: Id)
    requires s in st.tables.revoked
    ensures s in Next(st, action).tables.revoked
    ensures Next(st, action).tables.revoked[s] <==>
      st.tables.revoked[s]
      || (action.Commit? && action.actor in st.actors && st.actors[action.actor].Swept?
          && st.actors[action.actor].of == s)
  {}

  /** A session is revoked at the end of a run exactly if it was, or a revocation of it
      has committed. */
  lemma {:induction false} RevokedIffCommitted(st: State, actions: seq<Action>, s: Id)
    requires s in st.tables.revoked
    ensures s in Run(st, actions).tables.revoked
    ensures Run(st, actions).tables.revoked[s] <==> st.tables.revoked[s] || RevocationCommits(st, actions, s)
    decreases |actions|
  {
    hide Next;
    if actions != [] {
      StepRevokes(st, actions[0], s);
      RevokedIffCommitted(Next(st, actions[0]), actions[1..], s);
    }
  }

  /** Over the interval: an exchange that issues now and commits after `between` keeps
      revocation complete if and only if no revocation of its session commits in
      between and none has swept without having committed. */
  lemma ExchangeIntervalIff(st: State, a: Id, between: seq<Action>)
    requires Ok(st) && a in st.actors && st.actors[a].Redeeming? && Live(st.tables, st.actors[a].of)
    requires var issued := Next(st, ExchangeIssue(a, true)); var end := Run(issued, between);
             Complete(end) && a in end.actors && end.actors[a] == issued.actors[a]
    ensures var issued := Next(st, ExchangeIssue(a, true)); var end := Run(issued, between);
            Complete(Next(end, Commit(a))) <==>
              !RevocationCommits(issued, between, st.actors[a].of) && !SweptOpen(end, st.actors[a].of)
  {
    hide Ok, Complete;
    var issued := Next(st, ExchangeIssue(a, true));
    NextKeepsOk(st, ExchangeIssue(a, true));
    hide Next;
    RunKeepsOk(issued, between);
    RevokedIffCommitted(issued, between, st.actors[a].of);
    ExchangeCompleteIff(Run(issued, between), a);
  }

  /** An unrevoked token of a revoked session is there for everyone to see. */
  predicate Leaks(t: Tables) {
    exists x | x in t.tokens ::
      !t.tokens[x].revoked && t.tokens[x].session in t.revoked && t.revoked[t.tokens[x].session]
  }

  /** Incomplete means just that: a committed state has such a token, now or after the
      next commit of a revocation. */
  lemma IncompleteLeaks(st: State)
    requires Ok(st) && !Complete(st)
    ensures Leaks(st.tables) || exists a :: Leaks(Next(st, Commit(a)).tables)
  {
    hide LocksOk, WinnersOk, PhaseOk, Next, Published;
    if x :| x in st.tables.tokens && !st.tables.tokens[x].revoked && !Live(st.tables, st.tables.tokens[x].session) {
      assert Leaks(st.tables);
    } else {
      var a, x :| a in st.actors && st.actors[a].Swept? && x in st.tables.tokens
                  && st.tables.tokens[x].session == st.actors[a].of && !st.tables.tokens[x].revoked
                  && x !in st.actors[a].swept;
      MissedBySweep(st, a, x);
    }
  }

  lemma MissedBySweep(st: State, a: Id, x: Id)
    requires a in st.actors && st.actors[a].Swept? && x in st.tables.tokens
    requires st.tables.tokens[x].session == st.actors[a].of && !st.tables.tokens[x].revoked && x !in st.actors[a].swept
    ensures Leaks(Next(st, Commit(a)).tables)
  {
    assert x in Next(st, Commit(a)).tables.tokens;
  }

  lemma NextKeepsComplete(st: State, action: Action)
    requires Ok(st) && Complete(st) && Quiet(st, action)
    ensures Complete(Next(st, action))
  {
    match action
    case Commit(a) =>
      if a in st.actors && (st.actors[a].Issued? || st.actors[a].Swept?) { CommitKeepsComplete(st, a); }
      else if a in st.actors && st.actors[a].Redeemed? { ExchangeCompleteIff(st, a); }
    case _ => hide Ok, Live;
  }

  /** Every exchange of the run is quiet when it commits. */
  predicate QuietRun(st: State, actions: seq<Action>)
    decreases |actions|
  {
    actions == [] || (Quiet(st, actions[0]) && QuietRun(Next(st, actions[0]), actions[1..]))
  }

  /** In any interleaving of refreshes and revocations, with quiet exchanges, no
      committed state has an unrevoked token of a revoked session. */
  lemma {:induction false} RevocationStaysComplete(st: State, actions: seq<Action>)
    requires Ok(st) && Complete(st) && QuietRun(st, actions)
    ensures var t := Run(st, actions).tables;
            forall x | x in t.tokens && t.tokens[x].session in t.revoked && t.revoked[t.tokens[x].session] ::
              t.tokens[x].revoked
    decreases |actions|
  {
    hide Ok, Next, Quiet;
    if actions != [] {
      NextKeepsOk(st, actions[0]);
      NextKeepsComplete(st, actions[0]);
      RevocationStaysComplete(Next(st, actions[0]), actions[1..]);
      assert Run(st, actions) == Run(Next(st, actions[0]), actions[1..]);
    } else {
      forall x | x in st.tables.tokens && !st.tables.tokens[x].revoked
        ensures Live(st.tables, st.tables.tokens[x].session)
      {}
    }
  }

  /** No actor is exchanging a code. */
  predicate NobodyExchanges(st: State) {
    forall a | a in st.actors :: !st.actors[a].Redeeming? && !st.actors[a].Redeemed?
  }

  lemma {:induction false} LockTakersAreQuiet(st: State, actions: seq<Action>)
    requires NobodyExchanges(st) && forall i | 0 <= i < |actions| :: !actions[i].ExchangeCheck?
    ensures QuietRun(st, actions)
    decreases |actions|
  {
    if actions != [] {
      assert NobodyExchanges(Next(st, actions[0]));
      hide Next;
      LockTakersAreQuiet(Next(st, actions[0]), actions[1..]);
    }
  }

  /** Refreshes and revocations alone, in whatever number and order, never leave an
      unrevoked token of a revoked session. */
  lemma LockTakersStayComplete(st: State, actions: seq<Action>)
    requires Initial(st) && Complete(st) && forall i | 0 <= i < |actions| :: !actions[i].ExchangeCheck?
    ensures !Leaks(Run(st, actions).tables)
  {
    InitialOk(st);
    LockTakersAreQuiet(st, actions);
    RevocationStaysComplete(st, actions);
  }

  // ---------------------------------------------------------------- the races that are left

  const ONE_SESSION: State := State(Tables(map[0 := false], map[]), map[], map[], [], 1)

  lemma {:induction false} RunSplits(st: State, first: seq<Action>, second: seq<Action>)
    ensures Run(st, first + second) == Run(Run(st, first), second)
    decreases |first|
  {
    hide Next;
    if first == [] {
      assert first + second == second;
    } else {
      assert (first + second)[1..] == first[1..] + second;
      RunSplits(Next(st, first[0]), first[1..], second);
    }
  }

  lemma ThreeSteps(st: State, x: Action, y: Action, z: Action)
    ensures Run(st, [x, y, z]) == Next(Next(Next(st, x), y), z)
  {
    hide Next;
    assert [x, y, z][1..] == [y, z] && [y, z][1..] == [z] && [z][1..] == [];
    assert Run(Next(Next(st, x), y), [z]) == Run(Next(Next(Next(st, x), y), z), []);
    assert Run(Next(st, x), [y, z]) == Run(Next(Next(st, x), y), [z]);
  }

  /** The states of two runs half way. */
  const SWEPT_FIRST: State :=
    State(ONE_SESSION.tables, map[0 := 7], map[7 := Swept(0, {}), 8 := Redeeming(0)], [], 1)
  const ISSUED_FIRST: State :=
    State(ONE_SESSION.tables, map[0 := 7], map[7 := Revoking(0), 8 := Redeemed(0, 1)], [], 2)
  const TOKEN_LEFT: Tables := Tables(map[0 := true], map[1 := Row(0, false, false)])

  lemma SweepFirst()
    ensures Next(Next(Next(ONE_SESSION, BeginRevoke(7, 0)), Sweep(7)), ExchangeCheck(8, 0, true)) == SWEPT_FIRST
  {
    var y := Next(Next(ONE_SESSION, BeginRevoke(7, 0)), Sweep(7));
    assert y.actors[7] == Swept(0, {});
  }

  lemma ExchangeThenLogout()
    ensures Next(Next(Next(SWEPT_FIRST, ExchangeIssue(8, true)), Commit(8)), Commit(7)).tables == TOKEN_LEFT
  {
    var x := Next(SWEPT_FIRST, ExchangeIssue(8, true));
    assert x.actors[8] == Redeemed(0, 1) && x.actors[7] == Swept(0, {});
    var y := Next(x, Commit(8));
    assert y.actors[7] == Swept(0, {}) && y.tables == Tables(map[0 := false], map[1 := Row(0, false, false)]);
  }

  /** A logout sweeps, an exchange checks, issues and commits, the logout commits: an
      unrevoked token of a revoked session is left (no refresh accepts it). */
  lemma ExchangeInsideRevocation()
    ensures Run(ONE_SESSION, [BeginRevoke(7, 0), Sweep(7), ExchangeCheck(8, 0, true)]
                             + [ExchangeIssue(8, true), Commit(8), Commit(7)]).tables == TOKEN_LEFT
  {
    hide Next, Run;
    RunSplits(ONE_SESSION, [BeginRevoke(7, 0), Sweep(7), ExchangeCheck(8, 0, true)],
              [ExchangeIssue(8, true), Commit(8), Commit(7)]);
    ThreeSteps(ONE_SESSION, BeginRevoke(7, 0), Sweep(7), ExchangeCheck(8, 0, true));
    ThreeSteps(SWEPT_FIRST, ExchangeIssue(8, true), Commit(8), Commit(7));
    SweepFirst();
    ExchangeThenLogout();
  }

  lemma IssueFirst()
    ensures Next(Next(Next(ONE_SESSION, ExchangeCheck(8, 0, true)), ExchangeIssue(8, true)), BeginRevoke(7, 0))
            == ISSUED_FIRST
  {
    var y := Next(Next(ONE_SESSION, ExchangeCheck(8, 0, true)), ExchangeIssue(8, true));
    assert y == State(ONE_SESSION.tables, map[], map[8 := Redeemed(0, 1)], [], 2);
  }

  lemma LogoutThenExchange()
    ensures Next(Next(Next(ISSUED_FIRST, Sweep(7)), Commit(7)), Commit(8)).tables == TOKEN_LEFT
  {
    var x := Next(ISSUED_FIRST, Sweep(7));
    assert x.actors[7] == Swept(0, {}) && x.actors[8] == Redeemed(0, 1);
    var y := Next(x, Commit(7));
    assert y.tables == Tables(map[0 := true], map[]) && y.actors[8] == Redeemed(0, 1);
  }

  /** An exchange passes both checks, a whole logout runs, the exchange commits: the
      same token is left. */
  lemma RevocationInsideExchange()
    ensures Run(ONE_SESSION, [ExchangeCheck(8, 0, true), ExchangeIssue(8, true), BeginRevoke(7, 0)]
                             + [Sweep(7), Commit(7), Commit(8)]).tables == TOKEN_LEFT
  {
    hide Next, Run;
    RunSplits(ONE_SESSION, [ExchangeCheck(8, 0, true), ExchangeIssue(8, true), BeginRevoke(7, 0)],
              [Sweep(7), Commit(7), Commit(8)]);
    ThreeSteps(ONE_SESSION, ExchangeCheck(8, 0, true), ExchangeIssue(8, true), BeginRevoke(7, 0));
    ThreeSteps(ISSUED_FIRST, Sweep(7), Commit(7), Commit(8));
    IssueFirst();
    LogoutThenExchange();
  }

  /** Both start from a sound state without any token. */
  lemma RacesStartSound()
    ensures Initial(ONE_SESSION) && Complete(ONE_SESSION) && Leaks(TOKEN_LEFT)
  {
    assert 1 in TOKEN_LEFT.tokens;
  }
}

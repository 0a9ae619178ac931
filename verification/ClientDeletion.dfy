/** When the deletion of a client treats a cleaned and an uncleaned database alike. */
module ClientDeletion {
  import opened Prelude
  import opened Tables
  import opened Protocol
  import opened Retention
  import opened Removal
  import opened Observation

  ghost function Deleted(db: Db, c: Id, pick: Pick): Db {
    DeleteClient(db, c, Owners(db, c, pick))
  }

  predicate OwnedUnexpired(db: Db, s: Id, c: Id, now: Time) {
    s in db.sessions && !Expired(db.sessions[s], now) && db.sessions[s].client == c
  }

  /** The owner that a choice of the database gives session `s`; none if it has no
      candidate, and then the session is deleted. */
  ghost function NewOwnerOf(db: Db, c: Id, pick: Pick, s: Id): Option<Id> {
    if Candidates(db.tokens, db.codes, s, c) == {} then None else Some(Chosen(db, c, pick, s))
  }

  /** Two choices, one on each database, treat each unexpired session alike. */
  ghost predicate SameResult(a: Db, b: Db, c: Id, pick: Pick, pick': Pick, now: Time) {
    forall s | OwnedUnexpired(a, s, c, now) :: NewOwnerOf(b, c, pick', s) == NewOwnerOf(a, c, pick, s)
  }

  // ---------------------------------------------------------------- what a deletion leaves

  /** What a deletion makes of one session. */
  lemma SessionAfter(db: Db, c: Id, pick: Pick, s: Id)
    requires s in db.sessions
    ensures var owner, after := NewOwnerOf(db, c, pick, s), Deleted(db, c, pick).sessions;
            && (db.sessions[s].client != c ==> s in after && after[s] == db.sessions[s])
            && (db.sessions[s].client == c && owner.None? ==> s !in after)
            && (db.sessions[s].client == c && owner.Some? ==>
                  && s in after && owner.value in Candidates(db.tokens, db.codes, s, c)
                  && after[s] == db.sessions[s].(client := owner.value))
  {
    hide Candidates, Chosen, SharedWithOther, NewOwner, ForgetClient, UnlinkEvents, DoomedMails, OwnedAuths;
    ChosenIsCandidate(db, c, pick, s);
    CandidatesOwn(db, s, c, Chosen(db, c, pick, s));
    OwnersDiffer(db, s, c, Chosen(db, c, pick, s));
  }

  lemma OwnersDiffer(db: Db, s: Id, c: Id, owner: Id)
    ensures NewOwner(db.tokens, db.codes, s, c, owner) ==> owner != c
  {}

  lemma DeletedSessions(db: Db, c: Id, pick: Pick, s: Id)
    requires s in Deleted(db, c, pick).sessions
    ensures s in db.sessions
    ensures Deleted(db, c, pick).sessions[s] == db.sessions[s].(client := Deleted(db, c, pick).sessions[s].client)
  {
    hide Candidates, Chosen, SharedWithOther, ForgetClient, UnlinkEvents, DoomedMails, OwnedAuths;
  }

  /** Live sessions of a deleted database were live before, and the same rows are kept. */
  lemma DeletedRows(db: Db, c: Id, pick: Pick)
    ensures var after := Deleted(db, c, pick);
            && after.tokens == (map t | t in db.tokens && db.tokens[t].client != c :: db.tokens[t])
            && after.codes == (map x | x in db.codes && db.codes[x].client != c :: db.codes[x])
            && after.authSessions
               == (map x | x in db.authSessions && db.authSessions[x].client != c :: db.authSessions[x])
            && after.ids == db.ids.(clients := db.ids.clients - {c})
            && after.keys == db.keys && after.buckets == db.buckets && after.supply == db.supply
  {
    hide Candidates, SharedWithOther, ForgetClient, UnlinkEvents, DoomedMails, Owned, Rehomed, Owners;
  }

  lemma SessionsAfterSim(a: Db, b: Db, c: Id, pick: Pick, pick': Pick, now: Time)
    requires Sim(a, b, now) && SameResult(a, b, c, pick, pick', now)
    ensures SessionsSim(Deleted(a, c, pick).sessions, Deleted(b, c, pick').sessions, now)
  {
    hide CodesSim, TokensSim, AuthsSim, BucketsSim, Candidates, Deleted, NewOwnerOf;
    var x, y := Deleted(a, c, pick).sessions, Deleted(b, c, pick').sessions;
    forall s | s in x && !Expired(x[s], now) ensures s in y && y[s] == x[s] {
      DeletedSessions(a, c, pick, s);
      SessionAfter(a, c, pick, s);
      SessionAfter(b, c, pick', s);
    }
    forall s | s in y && !Expired(y[s], now) ensures s in x && y[s] == x[s] {
      DeletedSessions(b, c, pick', s);
      SessionAfter(a, c, pick, s);
      SessionAfter(b, c, pick', s);
    }
  }

  lemma StillLost(db: Db, c: Id, pick: Pick, s: Id, now: Time)
    requires !LiveIn(db.sessions, s, now)
    ensures !LiveIn(Deleted(db, c, pick).sessions, s, now)
  {
    hide Deleted;
    if s in Deleted(db, c, pick).sessions { DeletedSessions(db, c, pick, s); }
  }

  lemma RowsAfterSim(a: Db, b: Db, c: Id, pick: Pick, pick': Pick, now: Time)
    requires Sim(a, b, now)
    ensures CodesSim(Deleted(a, c, pick).sessions, Deleted(a, c, pick).codes, Deleted(b, c, pick').codes, now)
    ensures TokensSim(Deleted(a, c, pick).sessions, Deleted(a, c, pick).tokens, Deleted(b, c, pick').tokens, now)
  {
    hide SessionsSim, AuthsSim, BucketsSim, Deleted, LiveIn;
    DeletedRows(a, c, pick);
    DeletedRows(b, c, pick');
    forall s | !LiveIn(a.sessions, s, now) ensures !LiveIn(Deleted(a, c, pick).sessions, s, now) {
      StillLost(a, c, pick, s, now);
    }
  }

  /** With the same new owners the two databases cannot be told apart after the
      deletion either. */
  lemma DeletionKeepsSim(a: Db, b: Db, c: Id, pick: Pick, pick': Pick, now: Time)
    requires Sim(a, b, now) && SameResult(a, b, c, pick, pick', now)
    ensures Sim(Deleted(a, c, pick), Deleted(b, c, pick'), now)
  {
    SessionsAfterSim(a, b, c, pick, pick', now);
    RowsAfterSim(a, b, c, pick, pick', now);
    DeletedRows(a, c, pick);
    DeletedRows(b, c, pick');
    hide SessionsSim, CodesSim, TokensSim, SameResult, Deleted;
  }

  /** A session has an owner in `x` that it does not have in `y`. */
  predicate OwnerDiffers(x: Db, y: Db, s: Id, owner: Id, now: Time) {
    && s in x.sessions && !Expired(x.sessions[s], now) && x.sessions[s].client == owner
    && (s in y.sessions ==> y.sessions[s].client != owner)
  }

  /** A session that fares differently has an owner on one side that it lacks on the other. */
  lemma DifferenceFound(a: Db, b: Db, c: Id, pick: Pick, pick': Pick, now: Time) returns (s: Id, owner: Id)
    requires Sim(a, b, now) && !SameResult(a, b, c, pick, pick', now)
    ensures || OwnerDiffers(Deleted(a, c, pick), Deleted(b, c, pick'), s, owner, now)
            || OwnerDiffers(Deleted(b, c, pick'), Deleted(a, c, pick), s, owner, now)
  {
    hide Candidates, CodesSim, TokensSim, AuthsSim, BucketsSim, Deleted, NewOwnerOf;
    s :| OwnedUnexpired(a, s, c, now) && NewOwnerOf(b, c, pick', s) != NewOwnerOf(a, c, pick, s);
    var x, y := NewOwnerOf(a, c, pick, s), NewOwnerOf(b, c, pick', s);
    owner := if x.Some? then x.value else y.value;
    SessionAfter(a, c, pick, s);
    SessionAfter(b, c, pick', s);
  }

  /** Two databases that differ in an owner are not similar. */
  lemma DifferenceBreaksSim(a: Db, b: Db, s: Id, owner: Id, now: Time)
    requires OwnerDiffers(a, b, s, owner, now) || OwnerDiffers(b, a, s, owner, now)
    ensures !Sim(a, b, now)
  {}

  /** The deletion keeps two databases similar if and only if the choices made on them
      give each unexpired session the same new owner. */
  lemma DeletionKeepsSimIff(a: Db, b: Db, c: Id, pick: Pick, pick': Pick, now: Time)
    requires Sim(a, b, now)
    ensures Sim(Deleted(a, c, pick), Deleted(b, c, pick'), now) <==> SameResult(a, b, c, pick, pick', now)
  {
    hide Sim, SameResult, Deleted;
    if SameResult(a, b, c, pick, pick', now) {
      DeletionKeepsSim(a, b, c, pick, pick', now);
    } else {
      var s, owner := DifferenceFound(a, b, c, pick, pick', now);
      DifferenceBreaksSim(Deleted(a, c, pick), Deleted(b, c, pick'), s, owner, now);
    }
  }

  // ---------------------------------------------------------------- choices among the same rows

  predicate SameRows(a: Db, b: Db, s: Id, c: Id) {
    Consulted(b.tokens, b.codes, s, c) == Consulted(a.tokens, a.codes, s, c)
  }

  predicate SameCandidate(a: Db, b: Db, s: Id, c: Id) {
    Candidates(b.tokens, b.codes, s, c) == Candidates(a.tokens, a.codes, s, c)
    && |Candidates(a.tokens, a.codes, s, c)| == 1
  }

  /** For each unexpired session of the client the same rows are consulted on both
      databases, or all the rows consulted on either belong to one client. */
  ghost predicate OwnersAgree(a: Db, b: Db, c: Id, now: Time) {
    forall s | OwnedUnexpired(a, s, c, now) :: SameRows(a, b, s, c) || SameCandidate(a, b, s, c)
  }

  lemma OneChoice(db: Db, c: Id, pick: Pick, s: Id, only: Id)
    requires Candidates(db.tokens, db.codes, s, c) == {only}
    ensures NewOwnerOf(db, c, pick, s) == Some(only)
  {
    hide Candidates, Chosen;
    ChosenIsCandidate(db, c, pick, s);
  }

  lemma SameCandidateChosen(a: Db, b: Db, c: Id, pick: Pick, pick': Pick, s: Id)
    requires SameCandidate(a, b, s, c)
    ensures NewOwnerOf(b, c, pick', s) == NewOwnerOf(a, c, pick, s)
  {
    hide Candidates, NewOwnerOf;
    var only := Only(Candidates(a.tokens, a.codes, s, c));
    OneChoice(a, c, pick, s, only);
    OneChoice(b, c, pick', s, only);
  }

  /** Similar databases have the same client in the same row. */
  lemma SameRowsChosen(a: Db, b: Db, c: Id, pick: Pick, s: Id, now: Time)
    requires Sim(a, b, now) && SameRows(a, b, s, c)
    ensures NewOwnerOf(b, c, pick, s) == NewOwnerOf(a, c, pick, s)
  {
    hide Candidates, Consulted, SessionsSim, AuthsSim, BucketsSim, CodeLost, TokenLost;
    CandidatesConsulted(a.tokens, a.codes, s, c);
    CandidatesConsulted(b.tokens, b.codes, s, c);
    ConsultedThere(a, s, c);
    ConsultedThere(b, s, c);
    var rows := Consulted(a.tokens, a.codes, s, c);
    if rows.ids != {} { assert ChosenRow(pick, s, rows) in rows.ids; }
  }

  lemma ConsultedThere(db: Db, s: Id, c: Id)
    ensures var rows := Consulted(db.tokens, db.codes, s, c);
            forall r | r in rows.ids :: if rows.TokenRows? then r in db.tokens else r in db.codes
  {}

  lemma AgreeingOwners(a: Db, b: Db, c: Id, pick: Pick, now: Time)
    requires Sim(a, b, now) && OwnersAgree(a, b, c, now)
    ensures SameResult(a, b, c, pick, pick, now)
  {
    hide Sim, SameRows, SameCandidate, NewOwnerOf, OwnedUnexpired;
    forall s | OwnedUnexpired(a, s, c, now) ensures NewOwnerOf(b, c, pick, s) == NewOwnerOf(a, c, pick, s) {
      if SameRows(a, b, s, c) { SameRowsChosen(a, b, c, pick, s, now); }
      else { SameCandidateChosen(a, b, c, pick, pick, s); }
    }
  }

  /** A row that may be chosen is chosen by some choice. */
  lemma RowChosen(db: Db, c: Id, pick: Pick, s: Id, owner: Id)
    requires owner in Candidates(db.tokens, db.codes, s, c)
    requires pick(s, Consulted(db.tokens, db.codes, s, c)) == Witness(db, c, s, owner)
    ensures NewOwnerOf(db, c, pick, s) == Some(owner)
  {
    hide Candidates, Consulted, RowClient;
  }

  lemma AnotherCandidate(found: set<Id>, o: Id) returns (other: Id)
    requires o in found && |found| != 1
    ensures other in found && other != o
  {
    assert found != {o};
    other :| other in found && other != o;
  }

  lemma DifferentCandidates(x: set<Id>, y: set<Id>) returns (o: Id)
    requires x != y
    ensures (o in x) != (o in y)
  {
    if z :| z in x && z !in y {
      o := z;
    } else {
      assert exists z :: z in y && z !in x;
      o :| o in y && o !in x;
    }
  }

  /** Where candidates differ, some choice of a row on both databases shows it. */
  lemma CandidatesShow(a: Db, b: Db, c: Id, s: Id, o: Id) returns (pick: Pick)
    requires (o in Candidates(a.tokens, a.codes, s, c)) != (o in Candidates(b.tokens, b.codes, s, c))
    ensures forall pick': Pick ::
      if o in Candidates(a.tokens, a.codes, s, c) then NewOwnerOf(b, c, pick', s) != NewOwnerOf(a, c, pick, s)
      else NewOwnerOf(b, c, pick, s) != NewOwnerOf(a, c, pick', s)
  {
    hide Candidates, Chosen, NewOwnerOf, Consulted, RowClient;
    var x, y := Candidates(a.tokens, a.codes, s, c), Candidates(b.tokens, b.codes, s, c);
    var r := if o in x then Witness(a, c, s, o) else Witness(b, c, s, o);
    pick := (z, rows) => r;
    RowChosen(if o in x then a else b, c, pick, s, o);
    forall pick': Pick
      ensures if o in x then NewOwnerOf(b, c, pick', s) != Some(o) else NewOwnerOf(a, c, pick', s) != Some(o)
    {
      OwnerAmong(a, c, pick', s);
      OwnerAmong(b, c, pick', s);
    }
  }

  lemma OwnerAmong(db: Db, c: Id, pick: Pick, s: Id)
    ensures NewOwnerOf(db, c, pick, s).Some? ==>
      NewOwnerOf(db, c, pick, s).value in Candidates(db.tokens, db.codes, s, c)
  {
    hide Candidates, Chosen;
    ChosenIsCandidate(db, c, pick, s);
  }

  lemma NoRowsNoCandidates(a: Db, b: Db, s: Id, c: Id)
    requires Candidates(a.tokens, a.codes, s, c) == Candidates(b.tokens, b.codes, s, c) == {}
    ensures SameRows(a, b, s, c)
  {
    CandidatesConsulted(a.tokens, a.codes, s, c);
    CandidatesConsulted(b.tokens, b.codes, s, c);
    hide Candidates;
  }

  /** Where they do not agree, a choice of a row among those consulted shows it. */
  lemma DisagreementShows(a: Db, b: Db, c: Id, now: Time) returns (pick: Pick)
    requires !OwnersAgree(a, b, c, now)
    ensures !SameResult(a, b, c, pick, pick, now)
  {
    hide Candidates, Consulted, RowClient, NewOwnerOf, OwnedUnexpired, Chosen;
    var s :| OwnedUnexpired(a, s, c, now) && !SameRows(a, b, s, c) && !SameCandidate(a, b, s, c);
    var x, y := Candidates(a.tokens, a.codes, s, c), Candidates(b.tokens, b.codes, s, c);
    if x != y {
      var o := DifferentCandidates(x, y);
      pick := CandidatesShow(a, b, c, s, o);
    } else {
      if x == {} { NoRowsNoCandidates(a, b, s, c); }
      var o :| o in x;
      var other := AnotherCandidate(x, o);
      var before := Consulted(a.tokens, a.codes, s, c);
      var r, r' := Witness(a, c, s, o), Witness(b, c, s, other);
      pick := (z, rows) => if rows == before then r else r';
      RowChosen(a, c, pick, s, o);
      RowChosen(b, c, pick, s, other);
    }
  }

  /** Whatever row the database chooses among those a query matches, the deletion
      treats both databases alike: if and only if the rows agree. */
  lemma RowChoicesAgreeIff(a: Db, b: Db, c: Id, now: Time)
    requires Sim(a, b, now)
    ensures (forall pick: Pick :: SameResult(a, b, c, pick, pick, now)) <==> OwnersAgree(a, b, c, now)
  {
    hide Sim, SameResult, OwnersAgree;
    if OwnersAgree(a, b, c, now) {
      forall pick: Pick ensures SameResult(a, b, c, pick, pick, now) { AgreeingOwners(a, b, c, pick, now); }
    } else {
      var pick := DisagreementShows(a, b, c, now);
    }
  }

  // ---------------------------------------------------------------- choices that depend on anything

  /** Each unexpired session has the same candidates on both databases, one at most. */
  ghost predicate OwnersCertain(a: Db, b: Db, c: Id, now: Time) {
    forall s | OwnedUnexpired(a, s, c, now) ::
      || Candidates(b.tokens, b.codes, s, c) == Candidates(a.tokens, a.codes, s, c) == {}
      || SameCandidate(a, b, s, c)
  }

  lemma CertainOwners(a: Db, b: Db, c: Id, pick: Pick, pick': Pick, now: Time)
    requires OwnersCertain(a, b, c, now)
    ensures SameResult(a, b, c, pick, pick', now)
  {
    hide Candidates, NewOwnerOf, OwnedUnexpired;
    forall s | OwnedUnexpired(a, s, c, now) ensures NewOwnerOf(b, c, pick', s) == NewOwnerOf(a, c, pick, s) {
      if SameCandidate(a, b, s, c) { SameCandidateChosen(a, b, c, pick, pick', s); }
      else { NoCandidateNoOwner(a, c, pick, s); NoCandidateNoOwner(b, c, pick', s); }
    }
  }

  lemma NoCandidateNoOwner(db: Db, c: Id, pick: Pick, s: Id)
    requires Candidates(db.tokens, db.codes, s, c) == {}
    ensures NewOwnerOf(db, c, pick, s) == None
  {
    hide Candidates, Chosen;
  }

  lemma UncertaintyShows(a: Db, b: Db, c: Id, now: Time) returns (pick: Pick, pick': Pick)
    requires !OwnersCertain(a, b, c, now)
    ensures !SameResult(a, b, c, pick, pick', now)
  {
    hide Candidates, Consulted, RowClient, NewOwnerOf, OwnedUnexpired, Chosen;
    var s :| OwnedUnexpired(a, s, c, now) && !SameCandidate(a, b, s, c)
             && !(Candidates(b.tokens, b.codes, s, c) == Candidates(a.tokens, a.codes, s, c) == {});
    var x, y := Candidates(a.tokens, a.codes, s, c), Candidates(b.tokens, b.codes, s, c);
    if x != y {
      var o := DifferentCandidates(x, y);
      pick := CandidatesShow(a, b, c, s, o);
      pick' := pick;
    } else {
      var o :| o in x;
      var other := AnotherCandidate(x, o);
      var r, r' := Witness(a, c, s, o), Witness(b, c, s, other);
      pick, pick' := (z, rows) => r, (z, rows) => r';
      RowChosen(a, c, pick, s, o);
      RowChosen(b, c, pick', s, other);
    }
  }

  /** Whatever the choice on either database depends on, the deletion treats both
      alike: if and only if no session has a choice. */
  lemma AnyChoicesAgreeIff(a: Db, b: Db, c: Id, now: Time)
    ensures (forall pick: Pick, pick': Pick :: SameResult(a, b, c, pick, pick', now)) <==> OwnersCertain(a, b, c, now)
  {
    hide SameResult, OwnersCertain;
    if OwnersCertain(a, b, c, now) {
      forall pick: Pick, pick': Pick ensures SameResult(a, b, c, pick, pick', now) {
        CertainOwners(a, b, c, pick, pick', now);
      }
    } else {
      var pick, pick' := UncertaintyShows(a, b, c, now);
    }
  }

  // ---------------------------------------------------------------- the sets of possible outcomes

  /** Each unexpired session of the client has the same possible new owners. */
  ghost predicate SameCandidates(a: Db, b: Db, c: Id, now: Time) {
    forall s | OwnedUnexpired(a, s, c, now) ::
      Candidates(b.tokens, b.codes, s, c) == Candidates(a.tokens, a.codes, s, c)
  }

  /** What a choice does on one database, some choice does on the other. */
  lemma OutcomeMatched(a: Db, b: Db, c: Id, pick: Pick, now: Time) returns (pick': Pick)
    requires SameCandidates(a, b, c, now)
    ensures SameResult(a, b, c, pick, pick', now)
  {
    hide Candidates, Consulted, RowClient, Chosen, OwnedUnexpired, NewOwnerOf;
    var named := map s | s in a.sessions && OwnedUnexpired(a, s, c, now) && NewOwnerOf(a, c, pick, s).Some? ::
      NamedRow(a, b, c, pick, s, now);
    pick' := (s, rows) => if s in named then named[s] else 0;
    forall s | OwnedUnexpired(a, s, c, now) ensures NewOwnerOf(b, c, pick', s) == NewOwnerOf(a, c, pick, s) {
      OwnedIsThere(a, s, c, now);
      if NewOwnerOf(a, c, pick, s).Some? {
        OwnerAmong(a, c, pick, s);
        RowChosen(b, c, pick', s, NewOwnerOf(a, c, pick, s).value);
      } else {
        NoOwnerNoCandidate(a, c, pick, s);
        NoCandidateNoOwner(b, c, pick', s);
      }
    }
  }

  /** A row of `b` that names the owner chosen on `a`. */
  ghost function NamedRow(a: Db, b: Db, c: Id, pick: Pick, s: Id, now: Time): Id
    requires SameCandidates(a, b, c, now) && OwnedUnexpired(a, s, c, now) && NewOwnerOf(a, c, pick, s).Some?
  {
    OwnerAmong(a, c, pick, s);
    Witness(b, c, s, NewOwnerOf(a, c, pick, s).value)
  }

  lemma OwnedIsThere(db: Db, s: Id, c: Id, now: Time)
    requires OwnedUnexpired(db, s, c, now)
    ensures s in db.sessions
  {}

  lemma NoOwnerNoCandidate(db: Db, c: Id, pick: Pick, s: Id)
    requires NewOwnerOf(db, c, pick, s) == None
    ensures Candidates(db.tokens, db.codes, s, c) == {}
  {
    hide Candidates, Chosen;
  }

  lemma SameOwned(a: Db, b: Db, s: Id, c: Id, now: Time)
    requires Sim(a, b, now)
    ensures OwnedUnexpired(a, s, c, now) <==> OwnedUnexpired(b, s, c, now)
  {
    hide CodesSim, TokensSim, AuthsSim, BucketsSim, Expired;
  }

  /** Some choice on `b` does what this choice does on `a`, and the other way round. */
  ghost predicate Matched(a: Db, b: Db, c: Id, pick: Pick, now: Time) {
    exists pick': Pick :: SameResult(a, b, c, pick, pick', now)
  }

  ghost predicate MatchedBack(a: Db, b: Db, c: Id, pick': Pick, now: Time) {
    exists pick: Pick :: SameResult(a, b, c, pick, pick', now)
  }

  lemma SameCandidatesBack(a: Db, b: Db, c: Id, now: Time)
    requires Sim(a, b, now) && SameCandidates(a, b, c, now)
    ensures SameCandidates(b, a, c, now)
  {
    hide Sim, Candidates, OwnedUnexpired;
    forall s | OwnedUnexpired(b, s, c, now)
      ensures Candidates(a.tokens, a.codes, s, c) == Candidates(b.tokens, b.codes, s, c)
    {
      SameOwned(a, b, s, c, now);
    }
  }

  lemma SameResultBack(a: Db, b: Db, c: Id, pick: Pick, pick': Pick, now: Time)
    requires Sim(a, b, now) && SameResult(b, a, c, pick', pick, now)
    ensures SameResult(a, b, c, pick, pick', now)
  {
    hide Sim, NewOwnerOf, OwnedUnexpired;
    forall s | OwnedUnexpired(a, s, c, now) ensures NewOwnerOf(b, c, pick', s) == NewOwnerOf(a, c, pick, s) {
      SameOwned(a, b, s, c, now);
    }
  }

  lemma CandidatesMatch(a: Db, b: Db, c: Id, pick: Pick, now: Time)
    requires Sim(a, b, now) && SameCandidates(a, b, c, now)
    ensures Matched(a, b, c, pick, now) && MatchedBack(a, b, c, pick, now)
  {
    hide Sim, SameResult, SameCandidates;
    var there := OutcomeMatched(a, b, c, pick, now);
    SameCandidatesBack(a, b, c, now);
    var back := OutcomeMatched(b, a, c, pick, now);
    SameResultBack(a, b, c, back, pick, now);
  }

  lemma UnmatchedOutcome(a: Db, b: Db, c: Id, now: Time) returns (pick: Pick)
    requires !SameCandidates(a, b, c, now)
    ensures !Matched(a, b, c, pick, now) || !MatchedBack(a, b, c, pick, now)
  {
    hide Candidates, NewOwnerOf, OwnedUnexpired;
    var s :| OwnedUnexpired(a, s, c, now)
             && Candidates(b.tokens, b.codes, s, c) != Candidates(a.tokens, a.codes, s, c);
    var o := DifferentCandidates(Candidates(a.tokens, a.codes, s, c), Candidates(b.tokens, b.codes, s, c));
    pick := CandidatesShow(a, b, c, s, o);
  }

  /** The possible outcomes of the deletion are the same on both databases, each choice
      on one being matched by a choice on the other, if and only if each unexpired
      session has the same candidates. */
  lemma OutcomesCoincideIff(a: Db, b: Db, c: Id, now: Time)
    requires Sim(a, b, now)
    ensures (forall pick: Pick :: Matched(a, b, c, pick, now) && MatchedBack(a, b, c, pick, now))
            <==> SameCandidates(a, b, c, now)
  {
    hide Sim, Matched, MatchedBack, SameCandidates;
    if SameCandidates(a, b, c, now) {
      forall pick: Pick ensures Matched(a, b, c, pick, now) && MatchedBack(a, b, c, pick, now) {
        CandidatesMatch(a, b, c, pick, now);
      }
    } else {
      var pick := UnmatchedOutcome(a, b, c, now);
    }
  }
}

/** What deleting a client or a realm leaves of the database. */
module Removal {
  import opened Prelude
  import opened Tables
  import opened Invariants
  import opened Retention

  // ---------------------------------------------------------------- re-homing sessions

  /** Another client than `c` holds a refresh token of session `s`. */
  predicate TokenOfOther(tokens: map<Id, RefreshToken>, s: Id, c: Id) {
    exists t | t in tokens :: tokens[t].session == s && tokens[t].client != c
  }

  predicate CodeOfOther(codes: map<Id, Code>, s: Id, c: Id) {
    exists x | x in codes :: codes[x].session == s && codes[x].client != c
  }

  predicate SharedWithOther(db: Db, s: Id, c: Id) {
    TokenOfOther(db.tokens, s, c) || CodeOfOther(db.codes, s, c)
  }

  predicate OwnedBy(sessions: map<Id, UserSession>, s: Id, c: Id) {
    s in sessions && sessions[s].client == c
  }

  /** The new owner comes from a token if there is one, otherwise from a code;
      which of several the database returns is not determined. */
  predicate NewOwner(tokens: map<Id, RefreshToken>, codes: map<Id, Code>, s: Id, c: Id, owner: Id) {
    && owner != c
    && if TokenOfOther(tokens, s, c)
       then exists t | t in tokens :: tokens[t].session == s && tokens[t].client == owner
       else exists x | x in codes :: codes[x].session == s && codes[x].client == owner
  }

  /** A possible outcome of the re-homing loop. */
  ghost predicate Rehomes(db: Db, c: Id, owners: map<Id, Id>) {
    && (forall s | s in db.sessions ::
          s in owners <==> OwnedBy(db.sessions, s, c) && SharedWithOther(db, s, c))
    && (forall s | s in owners :: s in db.sessions && NewOwner(db.tokens, db.codes, s, c, owners[s]))
  }

  /** The clients that the re-homing of session `s` may choose from: those with a token
      of it, or with a code of it where nobody else has a token; none if the session is
      not shared. */
  function Candidates(tokens: map<Id, RefreshToken>, codes: map<Id, Code>, s: Id, c: Id): set<Id> {
    if TokenOfOther(tokens, s, c)
    then set t | t in tokens && tokens[t].session == s && tokens[t].client != c :: tokens[t].client
    else set x | x in codes && codes[x].session == s && codes[x].client != c :: codes[x].client
  }

  lemma CandidatesOwn(db: Db, s: Id, c: Id, owner: Id)
    ensures owner in Candidates(db.tokens, db.codes, s, c) <==> NewOwner(db.tokens, db.codes, s, c, owner)
    ensures Candidates(db.tokens, db.codes, s, c) == {} <==> !SharedWithOther(db, s, c)
  {
    var found := Candidates(db.tokens, db.codes, s, c);
    if TokenOfOther(db.tokens, s, c) {
      var t :| t in db.tokens && db.tokens[t].session == s && db.tokens[t].client != c;
      assert db.tokens[t].client in found;
    } else if CodeOfOther(db.codes, s, c) {
      var x :| x in db.codes && db.codes[x].session == s && db.codes[x].client != c;
      assert db.codes[x].client in found;
    }
  }

  function OtherTokens(tokens: map<Id, RefreshToken>, s: Id, c: Id): set<Id> {
    set t | t in tokens && tokens[t].session == s && tokens[t].client != c
  }

  function OtherCodes(codes: map<Id, Code>, s: Id, c: Id): set<Id> {
    set x | x in codes && codes[x].session == s && codes[x].client != c
  }

  /** The rows one of which names the new owner: those that the first query matches,
      or if there are none, those that the second one matches. */
  datatype Rows = TokenRows(ids: set<Id>) | CodeRows(ids: set<Id>)

  function Consulted(tokens: map<Id, RefreshToken>, codes: map<Id, Code>, s: Id, c: Id): Rows {
    if OtherTokens(tokens, s, c) != {} then TokenRows(OtherTokens(tokens, s, c)) else CodeRows(OtherCodes(codes, s, c))
  }

  /** The client column of a consulted row. */
  function RowClient(tokens: map<Id, RefreshToken>, codes: map<Id, Code>, rows: Rows, r: Id): Id {
    match rows
    case TokenRows(_) => if r in tokens then tokens[r].client else 0
    case CodeRows(_) => if r in codes then codes[r].client else 0
  }

  /** The candidates are the clients of the consulted rows. */
  lemma CandidatesConsulted(tokens: map<Id, RefreshToken>, codes: map<Id, Code>, s: Id, c: Id)
    ensures var rows := Consulted(tokens, codes, s, c);
            && (forall r | r in rows.ids :: RowClient(tokens, codes, rows, r) in Candidates(tokens, codes, s, c))
            && (forall o | o in Candidates(tokens, codes, s, c) ::
                  exists r :: r in rows.ids && RowClient(tokens, codes, rows, r) == o)
            && (rows.ids == {} <==> Candidates(tokens, codes, s, c) == {})
  {
    if TokenOfOther(tokens, s, c) {
      var t :| t in tokens && tokens[t].session == s && tokens[t].client != c;
      assert t in OtherTokens(tokens, s, c);
    } else {
      assert OtherTokens(tokens, s, c) == {};
    }
    var rows := Consulted(tokens, codes, s, c);
    forall o | o in Candidates(tokens, codes, s, c)
      ensures exists r :: r in rows.ids && RowClient(tokens, codes, rows, r) == o
    {
      if TokenOfOther(tokens, s, c) {
        var t :| t in tokens && tokens[t].session == s && tokens[t].client != c && tokens[t].client == o;
        assert t in rows.ids;
      } else {
        var x :| x in codes && codes[x].session == s && codes[x].client != c && codes[x].client == o;
        assert x in rows.ids;
      }
    }
    if r :| r in rows.ids {
      assert RowClient(tokens, codes, rows, r) in Candidates(tokens, codes, s, c);
    }
  }

  /** Which of the matching rows a query with a limit of one returns. */
  type Pick = (Id, Rows) -> Id

  ghost function ChosenRow(pick: Pick, s: Id, rows: Rows): Id {
    if rows.ids == {} || pick(s, rows) in rows.ids then pick(s, rows) else var r :| r in rows.ids; r
  }

  ghost function Chosen(db: Db, c: Id, pick: Pick, s: Id): Id {
    var rows := Consulted(db.tokens, db.codes, s, c);
    RowClient(db.tokens, db.codes, rows, ChosenRow(pick, s, rows))
  }

  lemma ChosenIsCandidate(db: Db, c: Id, pick: Pick, s: Id)
    ensures var found := Candidates(db.tokens, db.codes, s, c); found != {} ==> Chosen(db, c, pick, s) in found
  {
    hide Candidates, Consulted, RowClient;
    CandidatesConsulted(db.tokens, db.codes, s, c);
  }

  /** The new owners under a choice of the database. */
  ghost function Owners(db: Db, c: Id, pick: Pick): map<Id, Id> {
    map s | s in db.sessions && OwnedBy(db.sessions, s, c) && SharedWithOther(db, s, c) :: Chosen(db, c, pick, s)
  }

  lemma OwnersFit(db: Db, c: Id, pick: Pick)
    ensures Rehomes(db, c, Owners(db, c, pick))
  {
    hide SharedWithOther, NewOwner, Candidates, Chosen;
    forall s | s in Owners(db, c, pick)
      ensures NewOwner(db.tokens, db.codes, s, c, Owners(db, c, pick)[s])
    {
      CandidatesOwn(db, s, c, Owners(db, c, pick)[s]);
      ChosenIsCandidate(db, c, pick, s);
    }
  }

  /** A consulted row of session `s` that names the client `o`. */
  ghost function Witness(db: Db, c: Id, s: Id, o: Id): (r: Id)
    requires o in Candidates(db.tokens, db.codes, s, c)
    ensures var rows := Consulted(db.tokens, db.codes, s, c);
            r in rows.ids && RowClient(db.tokens, db.codes, rows, r) == o
  {
    CandidatesConsulted(db.tokens, db.codes, s, c);
    var rows := Consulted(db.tokens, db.codes, s, c);
    var r :| r in rows.ids && RowClient(db.tokens, db.codes, rows, r) == o;
    r
  }

  /** Every outcome of the loop is a choice of the database. */
  lemma OwnersAreAll(db: Db, c: Id, owners: map<Id, Id>) returns (pick: Pick)
    requires Rehomes(db, c, owners)
    ensures Owners(db, c, pick) == owners
  {
    hide SharedWithOther, NewOwner, Candidates, Consulted, RowClient;
    forall s | s in owners ensures owners[s] in Candidates(db.tokens, db.codes, s, c) {
      CandidatesOwn(db, s, c, owners[s]);
    }
    var named := map s | s in owners :: Witness(db, c, s, owners[s]);
    pick := (s, rows) => if s in named then named[s] else 0;
  }

  function Rehomed(sessions: map<Id, UserSession>, owners: map<Id, Id>): map<Id, UserSession> {
    map s | s in sessions ::
      if s in owners then sessions[s].(client := owners[s]) else sessions[s]
  }

  function Owned(sessions: map<Id, UserSession>, c: Id): set<Id> {
    set s | s in sessions && sessions[s].client == c
  }

  function OwnedAuths(authSessions: map<Id, AuthSession>, c: Id): set<Id> {
    set a | a in authSessions && authSessions[a].client == c
  }

  /** The tokens that `delete_client` names: the client's, and those of its sessions. */
  function DoomedTokens(tokens: map<Id, RefreshToken>, sessions: map<Id, UserSession>, c: Id): set<Id> {
    set t | t in tokens && (tokens[t].client == c || OwnedBy(sessions, tokens[t].session, c))
  }

  function DoomedCodes(codes: map<Id, Code>, sessions: map<Id, UserSession>, c: Id): set<Id> {
    set x | x in codes && (codes[x].client == c || OwnedBy(sessions, codes[x].session, c))
  }

  function DoomedMails(mails: map<Id, ResetEmail>, authSessions: map<Id, AuthSession>, c: Id): set<Id> {
    set m | m in mails &&
            (mails[m].client == Some(c)
             || (mails[m].authSession.Some? && mails[m].authSession.value in OwnedAuths(authSessions, c)))
  }

  function ForgetClient(events: map<Id, Event>, c: Id): map<Id, Event> {
    map e | e in events ::
      if events[e].client == Some(c) then events[e].(client := None) else events[e]
  }

  /** The refined form: drop the client's own codes and tokens, keep every shared
      session under another client, and leave every other row alone. */
  function DeleteClient(db: Db, c: Id, owners: map<Id, Id>): Db {
    var sessions := Rehomed(db.sessions, owners);
    Db(db.ids.(clients := db.ids.clients - {c}), db.keys,
       map a | a in db.authSessions && db.authSessions[a].client != c :: db.authSessions[a],
       db.resetEmails - DoomedMails(db.resetEmails, db.authSessions, c),
       sessions - Owned(sessions, c),
       map x | x in db.codes && db.codes[x].client != c :: db.codes[x],
       map t | t in db.tokens && db.tokens[t].client != c :: db.tokens[t],
       UnlinkEvents(ForgetClient(db.events, c), Owned(sessions, c)),
       db.buckets, db.supply)
  }

  /** After re-homing, the sessions still owned have only the client's own
      children, so the statements name exactly the client's rows. */
  lemma OwnedHaveOnlyOwnChildren(db: Db, c: Id, owners: map<Id, Id>)
    requires Rehomes(db, c, owners)
    requires CodeTable(db.ids, db.sessions, db.codes) && TokenTable(db.ids, db.sessions, db.tokens)
    ensures forall x | x in db.codes ::
      x in DoomedCodes(db.codes, Rehomed(db.sessions, owners), c) <==> db.codes[x].client == c
    ensures forall t | t in db.tokens ::
      t in DoomedTokens(db.tokens, Rehomed(db.sessions, owners), c) <==> db.tokens[t].client == c
  {
    var sessions := Rehomed(db.sessions, owners);
    forall x | x in db.codes && OwnedBy(sessions, db.codes[x].session, c)
      ensures db.codes[x].client == c
    {
      assert CodeRefs(db.ids, db.sessions, db.codes[x]);
      if db.codes[x].client != c {
        assert CodeOfOther(db.codes, db.codes[x].session, c);
      }
    }
    forall t | t in db.tokens && OwnedBy(sessions, db.tokens[t].session, c)
      ensures db.tokens[t].client == c
    {
      assert TokenRefs(db.ids, db.sessions, db.tokens[t]);
      if db.tokens[t].client != c {
        assert TokenOfOther(db.tokens, db.tokens[t].session, c);
      }
    }
  }

  /** Replacement links stay within a family, and a family within one client: no
      row of another client is even unlinked. */
  lemma NoLinkCrossesClients(tokens: map<Id, RefreshToken>, c: Id, gone: set<Id>)
    requires FamiliesOk(tokens)
    requires forall t | t in tokens :: t in gone <==> tokens[t].client == c
    ensures UnlinkTokens(tokens, gone) - gone == map t | t in tokens && tokens[t].client != c :: tokens[t]
  {
    forall t | t in tokens && tokens[t].client != c && tokens[t].replacedBy.Some?
      ensures tokens[t].replacedBy.value !in gone
    {
      var next := tokens[t].replacedBy.value;
      assert tokens[t].replacedBy == Some(next);
      assert InLine(t, tokens[t], next, tokens[next]);
    }
  }

  // ---------------------------------------------------------------- foreign keys of delete_client

  /** The loop has decided every owned session except those in `todo`. */
  ghost predicate Rehoming(db: Db, c: Id, owners: map<Id, Id>, todo: set<Id>) {
    && todo <= Owned(db.sessions, c)
    && (forall s | s in db.sessions && s !in todo ::
          s in owners <==> OwnedBy(db.sessions, s, c) && SharedWithOther(db, s, c))
    && (forall s | s in owners ::
          s in db.sessions && s !in todo && NewOwner(db.tokens, db.codes, s, c, owners[s]))
  }

  /** Any prefix of the loop keeps the foreign keys. */
  lemma RehomingSound(db: Db, c: Id, owners: map<Id, Id>, todo: set<Id>)
    requires Integrity(db)
    requires Rehoming(db, c, owners, todo) || Rehomes(db, c, owners)
    ensures Integrity(db.(sessions := Rehomed(db.sessions, owners)))
  {
    hide IdentityRefs, KeyTable, BucketTable, AuthTable, MailTable, LinkTable;
    var sessions := Rehomed(db.sessions, owners);
    forall s | s in sessions ensures SessionRefs(db.ids, sessions[s]) {
      assert SessionRefs(db.ids, db.sessions[s]);
      if s in owners {
        assert NewOwner(db.tokens, db.codes, s, c, owners[s]);
        if TokenOfOther(db.tokens, s, c) {
          var t :| t in db.tokens && db.tokens[t].session == s && db.tokens[t].client == owners[s];
          assert TokenRefs(db.ids, db.sessions, db.tokens[t]);
        } else {
          var x :| x in db.codes && db.codes[x].session == s && db.codes[x].client == owners[s];
          assert CodeRefs(db.ids, db.sessions, db.codes[x]);
        }
      }
    }
    SessionsMovedKeepRefs(db, sessions);
  }

  /** The owner of a session is not what its children refer to. */
  lemma SessionsMovedKeepRefs(db: Db, sessions: map<Id, UserSession>)
    requires Integrity(db) && SessionTable(db.ids, sessions)
    requires forall s | s in db.sessions ::
      && s in sessions && sessions[s].realm == db.sessions[s].realm
      && sessions[s].user == db.sessions[s].user
    ensures Integrity(db.(sessions := sessions))
  {
    hide IdentityRefs, KeyTable, BucketTable, AuthTable, MailTable, LinkTable, SessionTable;
    forall x | x in db.codes ensures CodeRefs(db.ids, sessions, db.codes[x]) {
      assert CodeRefs(db.ids, db.sessions, db.codes[x]);
    }
    forall t | t in db.tokens ensures TokenRefs(db.ids, sessions, db.tokens[t]) {
      assert TokenRefs(db.ids, db.sessions, db.tokens[t]);
    }
    forall e | e in db.events ensures EventRefs(db.ids, sessions, db.events[e]) {
      assert EventRefs(db.ids, db.sessions, db.events[e]);
    }
  }

  lemma DroppingMailsKeepsRefs(db: Db, gone: set<Id>)
    requires Integrity(db)
    ensures Integrity(db.(resetEmails := db.resetEmails - gone))
  {
    hide IdentityRefs, KeyTable, BucketTable, AuthTable, LinkTable, SessionTable, CodeTable,
         TokenTable, EventTable;
    assert MailTable(db.ids, db.authSessions, db.resetEmails - gone);
  }

  lemma ForgettingKeepsRefs(db: Db, c: Id)
    requires Integrity(db)
    ensures Integrity(db.(events := ForgetClient(db.events, c)))
  {
    hide IdentityRefs, KeyTable, BucketTable, AuthTable, LinkTable, SessionTable, CodeTable,
         TokenTable, MailTable;
    var events := ForgetClient(db.events, c);
    forall e | e in events ensures EventRefs(db.ids, db.sessions, events[e]) {
      assert EventRefs(db.ids, db.sessions, db.events[e]);
    }
  }

  lemma DeletingAuthsKeepsRefs(db: Db, gone: set<Id>)
    requires Integrity(db)
    requires forall m | m in db.resetEmails && db.resetEmails[m].authSession.Some? ::
      db.resetEmails[m].authSession.value !in gone
    ensures Integrity(db.(authSessions := db.authSessions - gone))
  {
    hide IdentityRefs, KeyTable, BucketTable, LinkTable, SessionTable, CodeTable, TokenTable, EventTable;
    var left := db.authSessions - gone;
    forall m | m in db.resetEmails ensures MailRefs(db.ids, left, db.resetEmails[m]) {
      assert MailRefs(db.ids, db.authSessions, db.resetEmails[m]);
    }
    assert AuthTable(db.ids, left);
  }

  lemma DeletingSessionsKeepsRefs(db: Db, gone: set<Id>)
    requires Integrity(db) && Childless(db, gone)
    requires forall e | e in db.events && db.events[e].session.Some? ::
      db.events[e].session.value !in gone
    ensures Integrity(db.(sessions := db.sessions - gone))
  {
    assert UnlinkEvents(db.events, gone) == db.events;
    DropSessionsKeepsRefs(db, gone);
  }

  /** Nothing refers to client `c` any more. */
  ghost predicate ClientUnused(db: Db, c: Id) {
    && (forall a | a in db.authSessions :: db.authSessions[a].client != c)
    && (forall m | m in db.resetEmails :: db.resetEmails[m].client != Some(c))
    && (forall e | e in db.events :: db.events[e].client != Some(c))
    && (forall s | s in db.sessions :: db.sessions[s].client != c)
    && (forall x | x in db.codes :: db.codes[x].client != c)
    && (forall t | t in db.tokens :: db.tokens[t].client != c)
  }

  lemma DeletingClientKeepsLogins(db: Db, ids: Identities, c: Id)
    requires AuthTable(db.ids, db.authSessions) && MailTable(db.ids, db.authSessions, db.resetEmails)
    requires EventTable(db.ids, db.sessions, db.events) && ClientUnused(db, c)
    requires ids == db.ids.(clients := db.ids.clients - {c})
    ensures AuthTable(ids, db.authSessions) && MailTable(ids, db.authSessions, db.resetEmails)
    ensures EventTable(ids, db.sessions, db.events)
  {
    forall a | a in db.authSessions ensures AuthRefs(ids, db.authSessions[a]) {
      assert AuthRefs(db.ids, db.authSessions[a]);
    }
    forall m | m in db.resetEmails ensures MailRefs(ids, db.authSessions, db.resetEmails[m]) {
      assert MailRefs(db.ids, db.authSessions, db.resetEmails[m]);
    }
    forall e | e in db.events ensures EventRefs(ids, db.sessions, db.events[e]) {
      assert EventRefs(db.ids, db.sessions, db.events[e]);
    }
  }

  lemma DeletingClientKeepsSessions(db: Db, ids: Identities, c: Id)
    requires SessionTable(db.ids, db.sessions) && CodeTable(db.ids, db.sessions, db.codes)
    requires TokenTable(db.ids, db.sessions, db.tokens) && ClientUnused(db, c)
    requires ids == db.ids.(clients := db.ids.clients - {c})
    ensures SessionTable(ids, db.sessions) && CodeTable(ids, db.sessions, db.codes)
    ensures TokenTable(ids, db.sessions, db.tokens)
  {
    forall s | s in db.sessions ensures SessionRefs(ids, db.sessions[s]) {
      assert SessionRefs(db.ids, db.sessions[s]);
    }
    forall x | x in db.codes ensures CodeRefs(ids, db.sessions, db.codes[x]) {
      assert CodeRefs(db.ids, db.sessions, db.codes[x]);
    }
    forall t | t in db.tokens ensures TokenRefs(ids, db.sessions, db.tokens[t]) {
      assert TokenRefs(db.ids, db.sessions, db.tokens[t]);
    }
  }

  lemma DeletingClientKeepsRefs(db: Db, c: Id)
    requires Integrity(db) && ClientUnused(db, c)
    ensures Integrity(db.(ids := db.ids.(clients := db.ids.clients - {c})))
  {
    hide AuthTable, MailTable, EventTable, SessionTable, CodeTable, TokenTable, LinkTable, ClientUnused;
    var ids := db.ids.(clients := db.ids.clients - {c});
    DeletingClientKeepsLogins(db, ids, c);
    DeletingClientKeepsSessions(db, ids, c);
  }

  // ---------------------------------------------------------------- the statements of delete_client

  function DeleteMails(db: Db, c: Id): Db {
    db.(resetEmails := db.resetEmails - DoomedMails(db.resetEmails, db.authSessions, c))
  }

  function ForgetClientEvents(db: Db, c: Id): Db { db.(events := ForgetClient(db.events, c)) }

  function ForgetSessionEvents(db: Db, c: Id): Db {
    db.(events := UnlinkEvents(db.events, Owned(db.sessions, c)))
  }

  function DeleteCodes(db: Db, c: Id): Db { DropCodes(db, DoomedCodes(db.codes, db.sessions, c)) }

  function UnlinkReplaced(db: Db, c: Id): Db {
    db.(tokens := UnlinkTokens(db.tokens, DoomedTokens(db.tokens, db.sessions, c)))
  }

  function DeleteTokens(db: Db, c: Id): Db { db.(tokens := db.tokens - DoomedTokens(db.tokens, db.sessions, c)) }

  function DeleteAuths(db: Db, c: Id): Db { db.(authSessions := db.authSessions - OwnedAuths(db.authSessions, c)) }

  function DeleteSessions(db: Db, c: Id): Db { db.(sessions := db.sessions - Owned(db.sessions, c)) }

  function DeleteClientRow(db: Db, c: Id): Db {
    db.(ids := db.ids.(clients := db.ids.clients - {c}))
  }

  /** The state after the statements that precede the deletion of tokens. */
  function BeforeTokens(at: Db, c: Id): Db {
    DeleteCodes(ForgetSessionEvents(ForgetClientEvents(DeleteMails(at, c), c), c), c)
  }

  /** The state after the statements that precede the deletion of the client. */
  function BeforeClient(at: Db, c: Id): Db {
    DeleteSessions(DeleteAuths(DeleteTokens(UnlinkReplaced(BeforeTokens(at, c), c), c), c), c)
  }

  lemma EarlyStatementsSound(at: Db, c: Id)
    requires Integrity(at)
    ensures Integrity(DeleteMails(at, c))
    ensures Integrity(ForgetClientEvents(DeleteMails(at, c), c))
    ensures Integrity(ForgetSessionEvents(ForgetClientEvents(DeleteMails(at, c), c), c))
    ensures Integrity(BeforeTokens(at, c))
  {
    hide Integrity;
    var a := DeleteMails(at, c);
    DroppingMailsKeepsRefs(at, DoomedMails(at.resetEmails, at.authSessions, c));
    var b := ForgetClientEvents(a, c);
    ForgettingKeepsRefs(a, c);
    var d := ForgetSessionEvents(b, c);
    UnlinkEventsKeepsRefs(b, Owned(b.sessions, c));
    DropCodesKeepsRefs(d, DoomedCodes(d.codes, d.sessions, c));
  }

  lemma TokenStatementsSound(db: Db, c: Id)
    requires Integrity(db)
    ensures Integrity(UnlinkReplaced(db, c))
    ensures Integrity(DeleteTokens(UnlinkReplaced(db, c), c))
  {
    hide IdentityRefs, KeyTable, BucketTable, AuthTable, MailTable, EventTable, SessionTable,
         CodeTable, TokenTable, LinkTable;
    var gone := DoomedTokens(db.tokens, db.sessions, c);
    UnlinkTokensSettles(db.tokens, gone);
    SettlingTokensKeepsRefs(db, UnlinkTokens(db.tokens, gone));
    SettlingTokensKeepsRefs(db, UnlinkTokens(db.tokens, gone) - gone);
    UnlinkingKeepsDoomed(db.tokens, db.sessions, c);
  }

  lemma LateStatementsSound(at: Db, c: Id)
    requires Integrity(at)
    ensures var d := DeleteTokens(UnlinkReplaced(BeforeTokens(at, c), c), c);
            && Integrity(d) && Integrity(DeleteAuths(d, c)) && Integrity(BeforeClient(at, c))
  {
    hide Integrity;
    EarlyStatementsSound(at, c);
    var b := BeforeTokens(at, c);
    TokenStatementsSound(b, c);
    var d := DeleteTokens(UnlinkReplaced(b, c), c);
    DeletingAuthsKeepsRefs(d, OwnedAuths(d.authSessions, c));
    var e := DeleteAuths(d, c);
    assert Childless(e, Owned(e.sessions, c));
    DeletingSessionsKeepsRefs(e, Owned(e.sessions, c));
  }

  lemma LastStatementSound(at: Db, c: Id)
    requires Integrity(at)
    ensures Integrity(DeleteClientRow(BeforeClient(at, c), c))
  {
    hide Integrity;
    LateStatementsSound(at, c);
    assert ClientUnused(BeforeClient(at, c), c);
    DeletingClientKeepsRefs(BeforeClient(at, c), c);
  }

  lemma UnlinkingKeepsDoomed(tokens: map<Id, RefreshToken>, sessions: map<Id, UserSession>, c: Id)
    ensures var gone := DoomedTokens(tokens, sessions, c);
            DoomedTokens(UnlinkTokens(tokens, gone), sessions, c) == gone
  {
    var gone := DoomedTokens(tokens, sessions, c);
    var left := UnlinkTokens(tokens, gone);
    forall t | t in tokens
      ensures t in DoomedTokens(left, sessions, c) <==> t in gone
    {}
  }

  /** The statements, from the re-homed state on, compute these tables. */
  lemma StatementsCompute(at: Db, c: Id)
    ensures var z := DeleteClientRow(BeforeClient(at, c), c);
            var gone := DoomedTokens(at.tokens, at.sessions, c);
            && z.ids == at.ids.(clients := at.ids.clients - {c})
            && z.keys == at.keys && z.buckets == at.buckets && z.supply == at.supply
            && z.authSessions == at.authSessions - OwnedAuths(at.authSessions, c)
            && z.resetEmails == at.resetEmails - DoomedMails(at.resetEmails, at.authSessions, c)
            && z.sessions == at.sessions - Owned(at.sessions, c)
            && z.codes == at.codes - DoomedCodes(at.codes, at.sessions, c)
            && z.tokens == UnlinkTokens(at.tokens, gone) - gone
            && z.events == UnlinkEvents(ForgetClient(at.events, c), Owned(at.sessions, c))
  {
    UnlinkingKeepsDoomed(at.tokens, at.sessions, c);
  }

  /** The statements compute the plain filter. */
  lemma StatementsFilter(db: Db, c: Id, owners: map<Id, Id>)
    requires Integrity(db) && FamiliesOk(db.tokens) && Rehomes(db, c, owners)
    ensures DeleteClientRow(BeforeClient(db.(sessions := Rehomed(db.sessions, owners)), c), c)
            == DeleteClient(db, c, owners)
  {
    hide IdentityRefs, KeyTable, BucketTable, AuthTable, MailTable, EventTable, SessionTable, LinkTable,
         FamiliesOk, TokenTable, CodeTable, Rehomes, DeleteClientRow, BeforeClient;
    var at := db.(sessions := Rehomed(db.sessions, owners));
    StatementsCompute(at, c);
    OwnedHaveOnlyOwnChildren(db, c, owners);
    NoLinkCrossesClients(db.tokens, c, DoomedTokens(at.tokens, at.sessions, c));
    assert at.codes - DoomedCodes(at.codes, at.sessions, c) == DeleteClient(db, c, owners).codes;
    assert at.authSessions - OwnedAuths(at.authSessions, c) == DeleteClient(db, c, owners).authSessions;
  }

  lemma DeleteClientKeepsRefs(db: Db, c: Id, owners: map<Id, Id>)
    requires Integrity(db) && FamiliesOk(db.tokens) && Rehomes(db, c, owners)
    ensures Integrity(DeleteClient(db, c, owners))
  {
    hide Integrity, FamiliesOk, Rehomes, DeleteClientRow, BeforeClient, DeleteClient, Rehomed;
    RehomingSound(db, c, owners, {});
    LastStatementSound(db.(sessions := Rehomed(db.sessions, owners)), c);
    StatementsFilter(db, c, owners);
  }

  // ---------------------------------------------------------------- what a deletion leaves

  /** No code, token or authentication session of another client is removed or
      altered, and nothing of the client is left. */
  lemma OtherClientsUntouched(db: Db, c: Id, owners: map<Id, Id>)
    ensures var after := DeleteClient(db, c, owners);
            && (forall x :: x in after.codes <==> x in db.codes && db.codes[x].client != c)
            && (forall t :: t in after.tokens <==> t in db.tokens && db.tokens[t].client != c)
            && (forall x | x in after.codes :: after.codes[x] == db.codes[x])
            && (forall t | t in after.tokens :: after.tokens[t] == db.tokens[t])
            && (forall a :: a in after.authSessions <==> a in db.authSessions && db.authSessions[a].client != c)
            && (forall a | a in after.authSessions :: after.authSessions[a] == db.authSessions[a])
            && (forall d :: d in after.ids.clients <==> d in db.ids.clients && d != c)
            && after.keys == db.keys && after.buckets == db.buckets && after.ids.users == db.ids.users
            && (forall d | d in after.ids.clients :: after.ids.clients[d] == db.ids.clients[d])
  {
    hide UnlinkEvents, ForgetClient, DoomedMails, Rehomed;
  }

  /** Events stay and forget no more than the client and the sessions that go; reset
      messages go if and only if they, or the login they belong to, name the client. */
  lemma EventsForgetOnlyTheClient(db: Db, c: Id, owners: map<Id, Id>)
    requires Integrity(db)
    ensures var after := DeleteClient(db, c, owners);
            && after.events.Keys == db.events.Keys
            && (forall e | e in after.events ::
                  var row := db.events[e];
                  after.events[e] ==
                  Event(row.realm, if row.client == Some(c) then None else row.client, row.user,
                        if row.session.Some? && row.session.value !in after.sessions then None else row.session))
            && (forall m :: m in after.resetEmails <==>
                  m in db.resetEmails && db.resetEmails[m].client != Some(c)
                  && forall a :: db.resetEmails[m].authSession == Some(a) ==> db.authSessions[a].client != c)
            && (forall m | m in after.resetEmails :: after.resetEmails[m] == db.resetEmails[m])
            && after.ids == db.ids.(clients := after.ids.clients) && after.supply == db.supply
  {
    hide IdentityRefs, KeyTable, BucketTable, AuthTable, LinkTable, SessionTable, CodeTable, TokenTable;
    var after := DeleteClient(db, c, owners);
    forall e | e in db.events ensures EventRefs(db.ids, db.sessions, db.events[e]) {}
    forall m | m in db.resetEmails ensures MailRefs(db.ids, db.authSessions, db.resetEmails[m]) {}
  }

  /** The sessions of the client that nobody else uses go, and no others. */
  lemma SessionSurvivesIff(db: Db, c: Id, owners: map<Id, Id>, s: Id)
    requires Rehomes(db, c, owners) && s in db.sessions
    ensures s in DeleteClient(db, c, owners).sessions <==> db.sessions[s].client != c || SharedWithOther(db, s, c)
  {
    hide SharedWithOther, TokenOfOther, CodeOfOther, ForgetClient, UnlinkEvents, DoomedMails, OwnedAuths;
    if s in owners {
      assert NewOwner(db.tokens, db.codes, s, c, owners[s]);
    }
  }

  /** A session that another client uses survives with every other column intact,
      under a client that has a token or code of it; a session of another client is
      not touched. */
  lemma SharedSessionsSurvive(db: Db, c: Id, owners: map<Id, Id>, s: Id)
    requires Rehomes(db, c, owners) && s in db.sessions
    requires db.sessions[s].client != c || SharedWithOther(db, s, c)
    ensures var after := DeleteClient(db, c, owners);
            && s in after.sessions && after.sessions[s].client != c
            && after.sessions[s] == db.sessions[s].(client := after.sessions[s].client)
            && (db.sessions[s].client != c ==> after.sessions[s] == db.sessions[s])
            && (db.sessions[s].client == c ==>
                  || (exists t :: t in after.tokens && after.tokens[t].session == s
                                  && after.tokens[t].client == after.sessions[s].client)
                  || (exists x :: x in after.codes && after.codes[x].session == s
                                  && after.codes[x].client == after.sessions[s].client))
  {
    OtherClientsUntouched(db, c, owners);
    hide SharedWithOther, TokenOfOther, CodeOfOther, ForgetClient, UnlinkEvents, DoomedMails, OwnedAuths;
    var after := DeleteClient(db, c, owners);
    if db.sessions[s].client == c {
      assert s in owners && NewOwner(db.tokens, db.codes, s, c, owners[s]);
      if TokenOfOther(db.tokens, s, c) {
        var t :| t in db.tokens && db.tokens[t].session == s && db.tokens[t].client == owners[s];
        assert t in after.tokens;
      } else {
        var x :| x in db.codes && db.codes[x].session == s && db.codes[x].client == owners[s];
        assert x in after.codes;
      }
    }
  }
}

/** Three sound databases on which a cleanup changes what the deletion of a client does. */
module StaleOwners {
  import opened Prelude
  import opened Tables
  import opened Protocol
  import opened Invariants
  import opened Retention
  import opened Removal
  import opened ClientDeletion
  import opened SettledOwners
  import opened SettledDeletions
  import opened Cleanup

  // ---------------------------------------------------------------- survival

  /** Another client has a token or code of session `s`, but only stale ones. */
  predicate OnlyStaleShare(db: Db, s: Id, c: Id, cutoff: Time) {
    && SharedWithOther(db, s, c)
    && (forall t | t in db.tokens && db.tokens[t].session == s && db.tokens[t].client != c ::
          TokenStale(db.sessions, db.tokens[t], cutoff))
    && (forall x | x in db.codes && db.codes[x].session == s && db.codes[x].client != c ::
          CodeStale(db.sessions, db.codes[x], cutoff))
  }

  /** Whether a session survives the deletion of the client that owns it depends on
      an earlier cleanup exactly when other clients share it through stale rows only. */
  lemma SurvivalSeesCleanupIff(db: Db, s: Id, c: Id, cutoff: Time, owners: map<Id, Id>, owners': map<Id, Id>)
    requires s in db.sessions && !Expired(db.sessions[s], cutoff) && db.sessions[s].client == c
    requires Rehomes(db, c, owners) && Rehomes(CleanupExpired(db, cutoff), c, owners')
    ensures s in CleanupExpired(db, cutoff).sessions
    ensures (s in DeleteClient(CleanupExpired(db, cutoff), c, owners').sessions
             <==> s in DeleteClient(db, c, owners).sessions)
            <==> !OnlyStaleShare(db, s, c, cutoff)
  {
    hide SharedWithOther, Rehomes, CleanupExpired, DeleteClient, TokenStale, CodeStale;
    var clean := CleanupExpired(db, cutoff);
    CleanupKeepsLive(db, s, cutoff);
    SurvivesIffShared(db, s, c, owners);
    SurvivesIffShared(clean, s, c, owners');
    CleanedShare(db, s, c, cutoff);
  }

  /** A session that has not expired at the cutoff, revoked or not, is retained. */
  lemma CleanupKeepsLive(db: Db, s: Id, cutoff: Time)
    requires s in db.sessions && !Expired(db.sessions[s], cutoff)
    ensures s in CleanupExpired(db, cutoff).sessions
    ensures CleanupExpired(db, cutoff).sessions[s] == db.sessions[s]
  {
    hide StaleTokens, StaleCodes, StaleAuths, UnlinkTokens, UnlinkMails, UnlinkEvents;
  }

  lemma SurvivesIffShared(db: Db, s: Id, c: Id, owners: map<Id, Id>)
    requires Rehomes(db, c, owners) && s in db.sessions && db.sessions[s].client == c
    ensures s in DeleteClient(db, c, owners).sessions <==> SharedWithOther(db, s, c)
  {
    hide TokenOfOther, CodeOfOther, UnlinkEvents, ForgetClient, DoomedMails;
  }

  lemma CleanedShare(db: Db, s: Id, c: Id, cutoff: Time)
    ensures SharedWithOther(CleanupExpired(db, cutoff), s, c)
            <==> SharedWithOther(db, s, c) && !OnlyStaleShare(db, s, c, cutoff)
  {
    CleanedRows(db, cutoff);
    var clean := CleanupExpired(db, cutoff);
    hide CleanupExpired, TokenStale, CodeStale;
    if SharedWithOther(db, s, c) && !OnlyStaleShare(db, s, c, cutoff) {
      if t :| t in db.tokens && db.tokens[t].session == s && db.tokens[t].client != c
              && !TokenStale(db.sessions, db.tokens[t], cutoff) {
        assert t in clean.tokens;
      } else {
        var x :| x in db.codes && db.codes[x].session == s && db.codes[x].client != c
                 && !CodeStale(db.sessions, db.codes[x], cutoff);
        assert x in clean.codes;
      }
    }
  }

  /** Session 4 belongs to client 1; client 2 only has an expired code of it. */
  const STALE_SHARE: Db := Db(
    Identities(map[0 := Realm(true, "issuer", None, None, None, None, None, None)],
               map[1 := Client(0, "one", true, true, "S256"), 2 := Client(0, "two", true, true, "S256")],
               map[3 := User(0, true)], map[], map[], map[]),
    map[], map[], map[], map[4 := UserSession(0, 1, 3, 0, 0, 100, 100, None)],
    map[5 := Code(0, 2, 3, 4, AuthParams("uri", [], None, None, None), 10, None)],
    map[], map[], map[], 6)

  lemma StaleShareNames()
    ensures IdentityRefs(STALE_SHARE.ids) && Drawn(STALE_SHARE) && Eligible(STALE_SHARE, 4, 0, 50)
  {}

  lemma StaleShareRows()
    ensures SessionTable(STALE_SHARE.ids, STALE_SHARE.sessions)
    ensures CodeTable(STALE_SHARE.ids, STALE_SHARE.sessions, STALE_SHARE.codes)
    ensures SessionsBounded(STALE_SHARE.sessions)
  {}

  lemma StaleShareSound()
    ensures Inv(STALE_SHARE, 50) && Eligible(STALE_SHARE, 4, 0, 50)
  {
    hide IdentityRefs, SessionTable, CodeTable, SessionsBounded, Drawn, Eligible;
    StaleShareNames();
    StaleShareRows();
  }

  lemma StaleShareKept()
    ensures Rehomes(STALE_SHARE, 1, map[4 := 2]) && SharedWithOther(STALE_SHARE, 4, 1)
  {
    assert 5 in STALE_SHARE.codes;
    assert CodeOfOther(STALE_SHARE.codes, 4, 1);
  }

  lemma StaleShareCleaned()
    ensures var clean := CleanupExpired(STALE_SHARE, 50);
            && clean.sessions == STALE_SHARE.sessions
            && Rehomes(clean, 1, map[]) && !SharedWithOther(clean, 4, 1)
  {
    CleanedRows(STALE_SHARE, 50);
    var clean := CleanupExpired(STALE_SHARE, 50);
    CleanupKeepsLive(STALE_SHARE, 4, 50);
    assert clean.sessions.Keys == {4} by {
      hide UnlinkMails, UnlinkEvents, UnlinkTokens, StaleCodes, StaleTokens, StaleAuths, StaleBuckets;
    }
    hide CleanupExpired;
  }

  /** The deletion of client 1 keeps session 4 under client 2, unless a cleanup at
      time 50 came first: then the session is deleted although it is live. */
  lemma DeletionSeesCleanup()
    ensures Inv(STALE_SHARE, 50) && Eligible(STALE_SHARE, 4, 0, 50)
    ensures Rehomes(STALE_SHARE, 1, map[4 := 2]) && 4 in DeleteClient(STALE_SHARE, 1, map[4 := 2]).sessions
    ensures var clean := CleanupExpired(STALE_SHARE, 50);
            Rehomes(clean, 1, map[]) && 4 !in DeleteClient(clean, 1, map[]).sessions
  {
    hide Inv, Eligible, Rehomes, CleanupExpired, DeleteClient, SharedWithOther;
    StaleShareSound();
    StaleShareKept();
    SurvivesIffShared(STALE_SHARE, 4, 1, map[4 := 2]);
    StaleShareCleaned();
    SurvivesIffShared(CleanupExpired(STALE_SHARE, 50), 4, 1, map[]);
  }

  // ---------------------------------------------------------------- a different owner

  /** An expired refresh token of client 2 for session 4. */
  const EXPIRED_TOKEN: RefreshToken := RefreshToken(
    Jwt(8, true, 9, Claims("issuer", 3, "two", "two", 0, 0, 0, 7, Refresh, 4, [], Some(0), None)),
    0, 2, 3, 4, 0, 0, [], 0, 10, None, None, None)

  /** Session 4 belongs to client 1. Client 2, disabled, has an expired token of it;
      client 6 has a code that is good until 90. */
  const STALE_OWNER: Db := Db(
    Identities(map[0 := Realm(true, "issuer", None, None, None, None, None, None)],
               map[1 := Client(0, "one", true, true, "S256"), 2 := Client(0, "two", false, true, "S256"),
                   6 := Client(0, "six", true, true, "optional")],
               map[3 := User(0, true)], map[], map[], map[]),
    map[8 := Key(0, true, 9, true, None)], map[], map[], map[4 := UserSession(0, 1, 3, 0, 0, 100, 100, None)],
    map[5 := Code(0, 6, 3, 4, AuthParams("uri", [], None, None, None), 90, None)],
    map[7 := EXPIRED_TOKEN], map[], map[], 10)

  lemma StaleOwnerNames()
    ensures IdentityRefs(STALE_OWNER.ids) && KeyTable(STALE_OWNER.ids, STALE_OWNER.keys)
  {}

  lemma StaleOwnerDrawn()
    ensures Drawn(STALE_OWNER)
  {}

  lemma StaleOwnerRows()
    ensures SessionTable(STALE_OWNER.ids, STALE_OWNER.sessions) && SessionsBounded(STALE_OWNER.sessions)
    ensures CodeTable(STALE_OWNER.ids, STALE_OWNER.sessions, STALE_OWNER.codes)
  {}

  lemma StaleOwnerTokens()
    ensures TokenTable(STALE_OWNER.ids, STALE_OWNER.sessions, STALE_OWNER.tokens)
    ensures Recorded(STALE_OWNER.ids, STALE_OWNER.keys, STALE_OWNER.sessions, STALE_OWNER.tokens)
    ensures TokensBounded(STALE_OWNER.sessions, STALE_OWNER.tokens) && FamiliesOk(STALE_OWNER.tokens)
  {}

  lemma StaleOwnerKeys()
    ensures KeysOk(STALE_OWNER.keys)
  {
    assert ActiveKeys(STALE_OWNER.keys, 0) == {8};
  }

  lemma StaleOwnerSound()
    ensures Inv(STALE_OWNER, 50)
  {
    hide IdentityRefs, KeyTable, SessionTable, CodeTable, TokenTable, SessionsBounded, Recorded, TokensBounded, Drawn,
         FamiliesOk, KeysOk;
    StaleOwnerNames();
    StaleOwnerDrawn();
    StaleOwnerRows();
    StaleOwnerTokens();
    StaleOwnerKeys();
  }

  /** Tokens come first, stale or not: client 2 is the only possible owner. */
  lemma StaleOwnerKept(pick: Pick)
    ensures Deleted(STALE_OWNER, 1, pick).sessions == map[4 := UserSession(0, 2, 3, 0, 0, 100, 100, None)]
  {
    assert Candidates(STALE_OWNER.tokens, STALE_OWNER.codes, 4, 1) == {2} by {
      assert 7 in STALE_OWNER.tokens;
    }
    hide Deleted, Candidates, NewOwnerOf;
    OneChoice(STALE_OWNER, 1, pick, 4, 2);
    SessionAfter(STALE_OWNER, 1, pick, 4);
    OneSession(STALE_OWNER, 1, pick, 4);
  }

  lemma OneSession(db: Db, c: Id, pick: Pick, s: Id)
    requires db.sessions.Keys == {s} && s in Deleted(db, c, pick).sessions
    ensures Deleted(db, c, pick).sessions == map[s := Deleted(db, c, pick).sessions[s]]
  {
    hide Deleted;
    forall x | x in Deleted(db, c, pick).sessions ensures x == s { DeletedSessions(db, c, pick, x); }
  }

  lemma StaleOwnerStale()
    ensures StaleTokens(STALE_OWNER, 50) == {7} && StaleCodes(STALE_OWNER, 50) == {}
    ensures StaleSessions(STALE_OWNER, 50) == {} && StaleAuths(STALE_OWNER, 50) == {}
    ensures StaleBuckets(STALE_OWNER, 50) == {}
  {
    assert TokenStale(STALE_OWNER.sessions, STALE_OWNER.tokens[7], 50);
  }

  lemma StaleOwnerCleaned()
    ensures CleanupExpired(STALE_OWNER, 50) == STALE_OWNER.(tokens := map[])
  {
    hide CleanupExpired, StaleTokens, StaleCodes, StaleSessions, StaleAuths, StaleBuckets;
    StaleOwnerStale();
    OnlyTokensStale(STALE_OWNER, 50);
    assert UnlinkTokens(STALE_OWNER.tokens, {7}) - {7} == map[];
  }

  lemma OnlyTokensStale(db: Db, cutoff: Time)
    requires StaleAuths(db, cutoff) == {} && StaleCodes(db, cutoff) == {}
    requires StaleSessions(db, cutoff) == {} && StaleBuckets(db, cutoff) == {}
    ensures CleanupExpired(db, cutoff) == DropTokens(db, StaleTokens(db, cutoff))
  {
    hide StaleAuths, StaleCodes, StaleTokens, StaleSessions, StaleBuckets, DropAuths, DropCodes, DropTokens,
         DropSessions, DropBuckets;
    StalenessLocal(db, {}, {}, StaleTokens(db, cutoff), cutoff);
    NothingDropped(db);
    NothingDropped(DropTokens(db, StaleTokens(db, cutoff)));
    BucketsUntouched(db, StaleTokens(db, cutoff), cutoff);
  }

  lemma BucketsUntouched(db: Db, gone: set<Id>, cutoff: Time)
    ensures StaleBuckets(DropTokens(db, gone), cutoff) == StaleBuckets(db, cutoff)
  {}

  lemma StaleOwnerMoved(pick: Pick)
    ensures var clean := STALE_OWNER.(tokens := map[]);
            Deleted(clean, 1, pick).sessions == map[4 := UserSession(0, 6, 3, 0, 0, 100, 100, None)]
  {
    var clean := STALE_OWNER.(tokens := map[]);
    assert Candidates(clean.tokens, clean.codes, 4, 1) == {6} by {
      assert 5 in clean.codes;
    }
    hide Deleted, Candidates, NewOwnerOf;
    OneChoice(clean, 1, pick, 4, 6);
    SessionAfter(clean, 1, pick, 4);
    OneSession(clean, 1, pick, 4);
  }

  lemma CodeUnder(db: Db, owner: Id, now: Time)
    requires db.sessions == map[4 := UserSession(0, owner, 3, 0, 0, 100, 100, None)] && now < 90
    requires db.codes == STALE_OWNER.codes && db.ids == STALE_OWNER.ids.(clients := STALE_OWNER.ids.clients - {1})
    ensures Eligible(db, 4, 0, now) <==> owner == 6
    ensures CodeAccepted(db, 0, 6, 5, "uri", None, now) <==> owner == 6
  {}

  /** Whatever the queries return, without a cleanup the session goes to the disabled
      client and the good code is refused; after one it goes to client 6 and the code is
      accepted. The session survives either way. */
  lemma OwnerSeesCleanup(pick: Pick, pick': Pick)
    ensures Inv(STALE_OWNER, 50)
    ensures var after := Deleted(STALE_OWNER, 1, pick);
            4 in after.sessions && !Eligible(after, 4, 0, 50) && !CodeAccepted(after, 0, 6, 5, "uri", None, 50)
    ensures var after := Deleted(CleanupExpired(STALE_OWNER, 50), 1, pick');
            4 in after.sessions && Eligible(after, 4, 0, 50) && CodeAccepted(after, 0, 6, 5, "uri", None, 50)
  {
    hide Inv, Deleted, CleanupExpired, Eligible, CodeAccepted;
    StaleOwnerSound();
    StaleOwnerKept(pick);
    StaleOwnerCleaned();
    StaleOwnerMoved(pick');
    var clean := STALE_OWNER.(tokens := map[]);
    DeletedRows(STALE_OWNER, 1, pick);
    DeletedRows(clean, 1, pick');
    assert Deleted(STALE_OWNER, 1, pick).codes == STALE_OWNER.codes;
    assert Deleted(clean, 1, pick').codes == STALE_OWNER.codes;
    CodeUnder(Deleted(STALE_OWNER, 1, pick), 2, 50);
    CodeUnder(Deleted(clean, 1, pick'), 6, 50);
  }

  // ---------------------------------------------------------------- a different row

  function CodeOf(client: Id, expiresAt: Time): Code {
    Code(0, client, 3, 4, AuthParams("uri", [], None, None, None), expiresAt, None)
  }

  /** Session 4 belongs to client 1. Client 2, disabled, has an expired code of it and a
      good one, and client 6 has a good one. */
  const STALE_ROW: Db := STALE_OWNER.(tokens := map[], codes := map[5 := CodeOf(2, 10), 20 := CodeOf(2, 90),
                                                                  21 := CodeOf(6, 90)],
                                      supply := 22)

  const CLEANED_ROW: Db := STALE_ROW.(codes := map[20 := CodeOf(2, 90), 21 := CodeOf(6, 90)])

  /** A database that returns the first match in the order 5, 21, 20. */
  const FIRST_STORED: Pick := (s: Id, rows: Rows) => if 5 in rows.ids then 5 else if 21 in rows.ids then 21 else 20

  lemma StaleRowSound()
    ensures Inv(STALE_ROW, 50)
  {
    hide IdentityRefs, KeyTable, SessionTable, CodeTable, SessionsBounded, Drawn, KeysOk;
    StaleOwnerNames();
    StaleOwnerRows();
    StaleOwnerKeys();
    StaleRowCodes();
  }

  lemma StaleRowCodes()
    ensures CodeTable(STALE_ROW.ids, STALE_ROW.sessions, STALE_ROW.codes) && Drawn(STALE_ROW)
  {}

  lemma StaleRowStale()
    ensures StaleCodes(STALE_ROW, 50) == {5} && StaleTokens(STALE_ROW, 50) == {}
    ensures StaleSessions(STALE_ROW, 50) == {} && StaleAuths(STALE_ROW, 50) == {} && StaleBuckets(STALE_ROW, 50) == {}
  {
    assert CodeStale(STALE_ROW.sessions, STALE_ROW.codes[5], 50);
  }

  lemma StaleRowCleaned()
    ensures CleanupExpired(STALE_ROW, 50) == CLEANED_ROW
  {
    hide CleanupExpired, StaleTokens, StaleCodes, StaleSessions, StaleAuths, StaleBuckets;
    StaleRowStale();
    OnlyCodesStale(STALE_ROW, 50);
  }

  lemma OnlyCodesStale(db: Db, cutoff: Time)
    requires StaleAuths(db, cutoff) == {} && StaleTokens(db, cutoff) == {}
    requires StaleSessions(db, cutoff) == {} && StaleBuckets(db, cutoff) == {}
    ensures CleanupExpired(db, cutoff) == DropCodes(db, StaleCodes(db, cutoff))
  {
    hide StaleAuths, StaleCodes, StaleTokens, StaleSessions, StaleBuckets, DropAuths, DropCodes, DropTokens,
         DropSessions, DropBuckets;
    StalenessLocal(db, {}, StaleCodes(db, cutoff), {}, cutoff);
    NothingDropped(db);
    NothingDropped(DropCodes(db, StaleCodes(db, cutoff)));
    CodesLeaveBuckets(db, StaleCodes(db, cutoff), cutoff);
  }

  lemma CodesLeaveBuckets(db: Db, gone: set<Id>, cutoff: Time)
    ensures StaleBuckets(DropCodes(db, gone), cutoff) == StaleBuckets(db, cutoff)
  {}

  /** The rows consulted, and the possible owners before and after the cleanup. */
  lemma StaleRowConsulted()
    ensures Consulted(STALE_ROW.tokens, STALE_ROW.codes, 4, 1) == CodeRows({5, 20, 21})
    ensures Consulted(CLEANED_ROW.tokens, CLEANED_ROW.codes, 4, 1) == CodeRows({20, 21})
    ensures Candidates(STALE_ROW.tokens, STALE_ROW.codes, 4, 1) == {2, 6}
    ensures Candidates(CLEANED_ROW.tokens, CLEANED_ROW.codes, 4, 1) == {2, 6}
  {
    assert 20 in CLEANED_ROW.codes && 21 in CLEANED_ROW.codes && 20 in STALE_ROW.codes && 21 in STALE_ROW.codes;
  }

  lemma StaleRowSettled()
    ensures CandidatesSettled(STALE_ROW, 1, 50) && !OwnersSettled(STALE_ROW, 1, 50)
  {
    var codes := STALE_ROW.codes;
    assert OtherTokens(STALE_ROW.tokens, 4, 1) == {};
    assert OtherCodes(codes, 4, 1) == {5, 20, 21} && KeptCodes(STALE_ROW, 4, 1, 50) == {20, 21};
    hide OtherTokens, OtherCodes, KeptCodes;
    assert CodeClients(STALE_ROW, 4, 1) == {2, 6} == KeptCodeClients(STALE_ROW, 4, 1, 50) by {
      assert codes[20].client == 2 && codes[21].client == 6 && codes[5].client == 2;
    }
    assert OwnedUnexpired(STALE_ROW, 4, 1, 50);
  }

  lemma StaleRowOwners()
    ensures Deleted(STALE_ROW, 1, FIRST_STORED).sessions == map[4 := UserSession(0, 2, 3, 0, 0, 100, 100, None)]
    ensures Deleted(CLEANED_ROW, 1, FIRST_STORED).sessions == map[4 := UserSession(0, 6, 3, 0, 0, 100, 100, None)]
  {
    hide Deleted, Candidates, Consulted;
    StaleRowConsulted();
    SessionAfter(STALE_ROW, 1, FIRST_STORED, 4);
    SessionAfter(CLEANED_ROW, 1, FIRST_STORED, 4);
    OneSession(STALE_ROW, 1, FIRST_STORED, 4);
    OneSession(CLEANED_ROW, 1, FIRST_STORED, 4);
  }

  lemma GoodCodeUnder(db: Db, owner: Id, now: Time)
    requires db.sessions == map[4 := UserSession(0, owner, 3, 0, 0, 100, 100, None)] && now < 90
    requires 21 in db.codes && db.codes[21] == CodeOf(6, 90)
    requires db.ids == STALE_OWNER.ids.(clients := STALE_OWNER.ids.clients - {1}) && owner in {2, 6}
    ensures Eligible(db, 4, 0, now) <==> owner == 6
    ensures CodeAccepted(db, 0, 6, 21, "uri", None, now) <==> owner == 6
  {}

  /** The cleanup leaves the possible owners, 2 and 6, as they are. Yet a database that
      returns the first stored match gives the session to the disabled client 2 by the
      expired row, and after the cleanup to client 6 by the next one. */
  lemma RowSeesCleanup()
    ensures Inv(STALE_ROW, 50) && CandidatesSettled(STALE_ROW, 1, 50) && !OwnersSettled(STALE_ROW, 1, 50)
    ensures var after := Deleted(STALE_ROW, 1, FIRST_STORED);
            4 in after.sessions && !Eligible(after, 4, 0, 50) && !CodeAccepted(after, 0, 6, 21, "uri", None, 50)
    ensures var after := Deleted(CleanupExpired(STALE_ROW, 50), 1, FIRST_STORED);
            4 in after.sessions && Eligible(after, 4, 0, 50) && CodeAccepted(after, 0, 6, 21, "uri", None, 50)
  {
    hide Inv, Deleted, CleanupExpired, Eligible, CodeAccepted, CandidatesSettled, OwnersSettled;
    StaleRowSound();
    StaleRowSettled();
    StaleRowCleaned();
    StaleRowOwners();
    DeletedRows(STALE_ROW, 1, FIRST_STORED);
    DeletedRows(CLEANED_ROW, 1, FIRST_STORED);
    GoodCodeUnder(Deleted(STALE_ROW, 1, FIRST_STORED), 2, 50);
    GoodCodeUnder(Deleted(CLEANED_ROW, 1, FIRST_STORED), 6, 50);
  }
}

/** What every reachable state of the protocol tables satisfies. */
module Invariants {
  import opened Prelude
  import opened Tables
  import opened Protocol

  // ---------------------------------------------------------------- the invariant

  predicate SameFamily(a: RefreshToken, b: RefreshToken) {
    a.session == b.session && a.client == b.client && a.user == b.user && a.realm == b.realm
  }

  /** Two rows of one family: same session, client and user; if the first is
      older it is used and its scope covers that of the second. */
  predicate InLine(a: Id, x: RefreshToken, b: Id, y: RefreshToken) {
    && SameFamily(x, y)
    && (x.generation == y.generation ==> a == b)
    && (x.generation < y.generation ==> x.usedAt.Some? && Narrows(y.scope, x.scope))
  }

  /** The rows of a family form a line: one row a generation, all of the same
      session, client and user, each but the last used, scopes only shrinking. */
  ghost predicate Linear(tokens: map<Id, RefreshToken>) {
    forall a, b | a in tokens && b in tokens && tokens[a].family == tokens[b].family ::
      InLine(a, tokens[a], b, tokens[b])
  }

  /** A replacement link is null or names the next generation. */
  ghost predicate Linked(tokens: map<Id, RefreshToken>) {
    forall a, b :: a in tokens && tokens[a].replacedBy == Some(b) ==>
      && b in tokens && tokens[b].family == tokens[a].family
      && tokens[b].generation == tokens[a].generation + 1
  }

  /** A row is the record of the token that was handed out. */
  predicate RecordOf(ids: Identities, keys: map<Id, Key>, sessions: map<Id, UserSession>,
                     t: Id, row: RefreshToken)
  {
    var c := row.hash.claims;
    && row.realm in ids.realms && row.client in ids.clients && row.session in sessions
    && row.hash.rs256 && row.hash.kid in keys
    && keys[row.hash.kid].realm == row.realm && keys[row.hash.kid].rs256
    && keys[row.hash.kid].publicPart == row.hash.signer
    && c.iss == ids.realms[row.realm].issuer && c.sub == row.user
    && c.aud == ids.clients[row.client].clientId && c.azp == c.aud
    && c.iat == Floor(row.createdAt) && c.exp == Floor(row.expiresAt)
    && c.authTime == Floor(sessions[row.session].authTime)
    && c.jti == t && c.typ == Refresh && c.sid == row.session && c.scope == row.scope
    && c.generation == Some(row.generation)
  }

  ghost predicate Recorded(ids: Identities, keys: map<Id, Key>, sessions: map<Id, UserSession>,
                           tokens: map<Id, RefreshToken>)
  {
    forall t | t in tokens :: RecordOf(ids, keys, sessions, t, tokens[t])
  }

  ghost predicate CreatedBy(tokens: map<Id, RefreshToken>, clock: Time) {
    forall t | t in tokens :: tokens[t].createdAt <= clock
  }

  /** No idle time and no refresh token outlives the maximum of its session. */
  ghost predicate SessionsBounded(sessions: map<Id, UserSession>) {
    forall s | s in sessions :: sessions[s].idleExpires <= sessions[s].maxExpires
  }

  ghost predicate TokensBounded(sessions: map<Id, UserSession>, tokens: map<Id, RefreshToken>) {
    forall t | t in tokens ::
      tokens[t].session in sessions && tokens[t].expiresAt <= sessions[tokens[t].session].maxExpires
  }

  ghost predicate Below<T>(rows: map<Id, T>, supply: Id) {
    forall x | x in rows :: x < supply
  }

  ghost predicate FamiliesBelow(tokens: map<Id, RefreshToken>, supply: Id) {
    forall t | t in tokens :: tokens[t].family < supply
  }

  /** Every identifier in use was drawn from the supply. */
  ghost predicate Drawn(db: Db) {
    && Below(db.sessions, db.supply) && Below(db.codes, db.supply)
    && Below(db.tokens, db.supply) && FamiliesBelow(db.tokens, db.supply)
    && Below(db.keys, db.supply) && Below(db.authSessions, db.supply) && Below(db.events, db.supply)
    && Below(db.ids.realms, db.supply) && Below(db.ids.clients, db.supply)
    && Below(db.ids.users, db.supply)
  }

  /** A key is active exactly while it has no deactivation time, and a realm
      that has keys has exactly one active key. */
  ghost predicate KeysOk(keys: map<Id, Key>) {
    && (forall k | k in keys ::
          keys[k].rs256 && (keys[k].active <==> keys[k].deactivatedAt.None?))
    && (forall k | k in keys :: |ActiveKeys(keys, keys[k].realm)| == 1)
  }

  ghost predicate FamiliesOk(tokens: map<Id, RefreshToken>) {
    Linear(tokens) && Linked(tokens)
  }

  ghost predicate RowsOk(db: Db, clock: Time) {
    && Recorded(db.ids, db.keys, db.sessions, db.tokens) && CreatedBy(db.tokens, clock)
    && SessionsBounded(db.sessions) && TokensBounded(db.sessions, db.tokens)
  }

  ghost predicate Inv(db: Db, clock: Time) {
    Integrity(db) && FamiliesOk(db.tokens) && RowsOk(db, clock) && Drawn(db) && KeysOk(db.keys)
  }

  lemma ClockAdvances(db: Db, clock: Time, now: Time)
    requires Inv(db, clock) && clock <= now
    ensures Inv(db, now)
  {
    hide Integrity, FamiliesOk, Recorded, SessionsBounded, TokensBounded, Drawn, KeysOk;
  }

  lemma DrawKeepsInv(db: Db, n: nat, now: Time)
    requires Inv(db, now)
    ensures Inv(Draw(db, n), now)
  {
    hide IdentityRefs, KeyTable, BucketTable, AuthTable, MailTable, EventTable, SessionTable,
         CodeTable, TokenTable, LinkTable, FamiliesOk, Recorded, CreatedBy, SessionsBounded,
         TokensBounded, KeysOk;
  }

  // ---------------------------------------------------------------- issuing tokens

  /** A token row may be the parent of the next one: it was just used and is the
      last of its family. */
  ghost predicate ParentReady(db: Db, p: Id, realm: Id, client: Id, sid: Id, scope: Scope) {
    && p in db.tokens
    && var row := db.tokens[p];
    && row.usedAt.Some? && row.realm == realm && row.client == client && row.session == sid
    && Narrows(scope, row.scope)
    && forall b | b in db.tokens && db.tokens[b].family == row.family ::
         db.tokens[b].generation <= row.generation
  }

  ghost predicate ParentFits(tokens: map<Id, RefreshToken>, row: RefreshToken, parent: Option<Id>) {
    if parent.None? then forall b | b in tokens :: tokens[b].family != row.family
    else
      && parent.value in tokens
      && var p := tokens[parent.value];
      && p.usedAt.Some? && SameFamily(p, row) && p.family == row.family
      && row.generation == p.generation + 1 && Narrows(row.scope, p.scope)
      && forall b | b in tokens && tokens[b].family == p.family :: tokens[b].generation <= p.generation
  }

  lemma AddRowKeepsLine(db: Db, t: Id, row: RefreshToken, parent: Option<Id>)
    requires Linear(db.tokens) && t !in db.tokens && ParentFits(db.tokens, row, parent)
    ensures Linear(AddRow(db, t, row, parent).tokens)
  {
    var after := AddRow(db, t, row, parent).tokens;
    forall a, b | a in after && b in after && after[a].family == after[b].family
      ensures InLine(a, after[a], b, after[b])
    {
      if a != t && b != t {
        assert InLine(a, db.tokens[a], b, db.tokens[b]);
      } else if parent.Some? {
        var p := parent.value;
        assert a != t ==> InLine(a, db.tokens[a], p, db.tokens[p]);
        assert b != t ==> InLine(b, db.tokens[b], p, db.tokens[p]);
      }
    }
  }

  lemma AddRowKeepsLinks(db: Db, t: Id, row: RefreshToken, parent: Option<Id>)
    requires Linked(db.tokens) && t !in db.tokens && row.replacedBy.None?
    requires ParentFits(db.tokens, row, parent)
    ensures Linked(AddRow(db, t, row, parent).tokens) && LinkTable(AddRow(db, t, row, parent).tokens)
  {}

  lemma AddRowKeepsRows(db: Db, t: Id, row: RefreshToken, parent: Option<Id>)
    requires TokenTable(db.ids, db.sessions, db.tokens) && TokenRefs(db.ids, db.sessions, row)
    requires TokensBounded(db.sessions, db.tokens)
    requires row.expiresAt <= db.sessions[row.session].maxExpires
    requires parent.Some? ==> parent.value in db.tokens
    ensures TokenTable(db.ids, db.sessions, AddRow(db, t, row, parent).tokens)
    ensures TokensBounded(db.sessions, AddRow(db, t, row, parent).tokens)
  {
    var after := AddRow(db, t, row, parent).tokens;
    forall x | x in after ensures TokenRefs(db.ids, db.sessions, after[x]) {
      assert x != t ==> TokenRefs(db.ids, db.sessions, db.tokens[x]);
    }
  }

  lemma AddRowKeepsRecords(db: Db, t: Id, row: RefreshToken, parent: Option<Id>, now: Time)
    requires Recorded(db.ids, db.keys, db.sessions, db.tokens) && CreatedBy(db.tokens, now)
    requires t !in db.tokens && RecordOf(db.ids, db.keys, db.sessions, t, row) && row.createdAt == now
    requires parent.Some? ==> parent.value in db.tokens
    ensures Recorded(db.ids, db.keys, db.sessions, AddRow(db, t, row, parent).tokens)
    ensures CreatedBy(AddRow(db, t, row, parent).tokens, now)
  {
    var after := AddRow(db, t, row, parent).tokens;
    forall x | x in after ensures RecordOf(db.ids, db.keys, db.sessions, x, after[x]) {
      assert x != t ==> RecordOf(db.ids, db.keys, db.sessions, x, db.tokens[x]);
    }
  }

  /** A row that may be inserted under the identifier `t`. */
  ghost predicate RowFits(db: Db, t: Id, row: RefreshToken, now: Time) {
    && t !in db.tokens && TokenRefs(db.ids, db.sessions, row)
    && row.usedAt.None? && row.replacedBy.None?
    && RecordOf(db.ids, db.keys, db.sessions, t, row) && row.createdAt == now
    && row.expiresAt <= db.sessions[row.session].maxExpires
  }

  lemma NewRefreshFits(db: Db, cfg: Config, realm: Id, client: Id, sid: Id, scope: Scope,
                       parent: Option<Id>, now: Time)
    requires Below(db.tokens, db.supply) && FamiliesBelow(db.tokens, db.supply)
    requires parent.Some? ==> ParentReady(db, parent.value, realm, client, sid, scope)
    requires MayIssue(db, realm, client, sid, now) && |ActiveKeys(db.keys, realm)| == 1
    requires parent.Some? ==> db.sessions[sid].user == db.tokens[parent.value].user
    ensures RowFits(db, db.supply + 2, NewRefresh(db, cfg, realm, client, sid, scope, parent, now), now)
    ensures ParentFits(db.tokens, NewRefresh(db, cfg, realm, client, sid, scope, parent, now), parent)
  {
    assert Only(ActiveKeys(db.keys, realm)) in ActiveKeys(db.keys, realm);
  }

  lemma AddRowKeepsInv(db: Db, t: Id, row: RefreshToken, parent: Option<Id>, n: nat, now: Time)
    requires Inv(db, now) && RowFits(db, t, row, now) && ParentFits(db.tokens, row, parent)
    requires t < db.supply + n && row.family < db.supply + n
    ensures Inv(Draw(AddRow(db, t, row, parent), n), now)
  {
    hide Linear, Linked, LinkTable, Recorded, RecordOf, CreatedBy, KeysOk, SessionsBounded,
         TokenTable, TokenRefs, TokensBounded, IdentityRefs, KeyTable, BucketTable, AuthTable,
         MailTable, EventTable, SessionTable, CodeTable;
    AddRowKeepsLine(db, t, row, parent);
    AddRowKeepsLinks(db, t, row, parent);
    AddRowKeepsRows(db, t, row, parent);
    AddRowKeepsRecords(db, t, row, parent, now);
  }

  lemma IssueKeepsInv(db: Db, cfg: Config, realm: Id, client: Id, sid: Id, scope: Scope,
                      nonce: Option<string>, parent: Option<Id>, now: Time)
    requires Inv(db, now)
    requires parent.Some? ==> ParentReady(db, parent.value, realm, client, sid, scope)
    requires IssueTokens(db, cfg, realm, client, sid, scope, nonce, parent, now).Issued?
    ensures Inv(IssueTokens(db, cfg, realm, client, sid, scope, nonce, parent, now).db, now)
  {
    hide FamiliesOk, RowsOk, KeysOk, IdentityRefs, KeyTable, BucketTable, AuthTable,
         MailTable, EventTable, SessionTable, CodeTable, LinkTable;
    assert parent.Some? ==> TokenRefs(db.ids, db.sessions, db.tokens[parent.value]);
    NewRefreshFits(db, cfg, realm, client, sid, scope, parent, now);
    AddRowKeepsInv(db, db.supply + 2, NewRefresh(db, cfg, realm, client, sid, scope, parent, now),
                   parent, 4, now);
  }

  // ---------------------------------------------------------------- rows that settle

  /** A token row may be marked used or revoked and may lose its link, but keeps
      every other column. */
  predicate Settled(x: RefreshToken, y: RefreshToken) {
    && y == x.(usedAt := y.usedAt, revokedAt := y.revokedAt, replacedBy := y.replacedBy)
    && (x.usedAt.Some? ==> y.usedAt == x.usedAt)
    && (x.revokedAt.Some? ==> y.revokedAt == x.revokedAt)
    && (y.replacedBy.Some? ==> y.replacedBy == x.replacedBy)
  }

  /** Rows only settle or disappear, and no link dangles. */
  ghost predicate TokensSettle(a: map<Id, RefreshToken>, b: map<Id, RefreshToken>) {
    && (forall t | t in b :: t in a && Settled(a[t], b[t]))
    && LinkTable(b)
  }

  lemma SettlingKeepsFamilies(a: map<Id, RefreshToken>, b: map<Id, RefreshToken>)
    requires FamiliesOk(a) && TokensSettle(a, b)
    ensures FamiliesOk(b)
  {
    forall x, y | x in b && y in b && b[x].family == b[y].family ensures InLine(x, b[x], y, b[y]) {
      assert Settled(a[x], b[x]) && Settled(a[y], b[y]);
      assert InLine(x, a[x], y, a[y]);
    }
    forall x, y | x in b && b[x].replacedBy == Some(y)
      ensures y in b && b[y].family == b[x].family && b[y].generation == b[x].generation + 1
    {
      assert Settled(a[x], b[x]) && a[x].replacedBy == Some(y);
      assert y in b && Settled(a[y], b[y]);
    }
  }

  /** What the record of a token depends on is unchanged. */
  predicate Anchored(a: Db, b: Db, row: RefreshToken) {
    && row.realm in a.ids.realms && row.realm in b.ids.realms
    && b.ids.realms[row.realm].issuer == a.ids.realms[row.realm].issuer
    && row.client in a.ids.clients && row.client in b.ids.clients
    && b.ids.clients[row.client].clientId == a.ids.clients[row.client].clientId
    && row.hash.kid in a.keys && row.hash.kid in b.keys
    && b.keys[row.hash.kid].realm == a.keys[row.hash.kid].realm
    && b.keys[row.hash.kid].rs256 == a.keys[row.hash.kid].rs256
    && b.keys[row.hash.kid].publicPart == a.keys[row.hash.kid].publicPart
    && row.session in a.sessions && row.session in b.sessions
    && b.sessions[row.session].authTime == a.sessions[row.session].authTime
    && b.sessions[row.session].maxExpires == a.sessions[row.session].maxExpires
  }

  lemma SettlingKeepsRows(a: Db, b: Db, now: Time)
    requires RowsOk(a, now) && TokensSettle(a.tokens, b.tokens) && SessionsBounded(b.sessions)
    requires AllAnchored(a, b)
    ensures RowsOk(b, now)
  {
    forall t | t in b.tokens
      ensures RecordOf(b.ids, b.keys, b.sessions, t, b.tokens[t]) && b.tokens[t].createdAt <= now
      ensures b.tokens[t].session in b.sessions
      ensures b.tokens[t].expiresAt <= b.sessions[b.tokens[t].session].maxExpires
    {
      assert Settled(a.tokens[t], b.tokens[t]) && Anchored(a, b, b.tokens[t]);
      assert RecordOf(a.ids, a.keys, a.sessions, t, a.tokens[t]);
    }
  }

  /** Every remaining token still has what its record depends on. */
  ghost predicate AllAnchored(a: Db, b: Db) {
    forall t | t in b.tokens :: Anchored(a, b, b.tokens[t])
  }

  lemma SameAnchors(a: Db, b: Db, now: Time)
    requires RowsOk(a, now) && TokensSettle(a.tokens, b.tokens) && b.ids == a.ids && b.keys == a.keys
    requires forall t | t in b.tokens :: b.tokens[t].session in b.sessions
    requires forall s | s in a.sessions && s in b.sessions ::
      && b.sessions[s].authTime == a.sessions[s].authTime
      && b.sessions[s].maxExpires == a.sessions[s].maxExpires
    ensures AllAnchored(a, b)
  {
    forall t | t in b.tokens ensures Anchored(a, b, b.tokens[t]) {
      assert Settled(a.tokens[t], b.tokens[t]);
      assert RecordOf(a.ids, a.keys, a.sessions, t, a.tokens[t]);
    }
  }

  /** Steps that change the rest of the state in any way that keeps the foreign
      keys, and let token rows settle, keep the invariant. */
  lemma SettlingKeepsInv(a: Db, b: Db, now: Time)
    requires Inv(a, now) && Integrity(b) && Drawn(b) && KeysOk(b.keys)
    requires TokensSettle(a.tokens, b.tokens) && SessionsBounded(b.sessions)
    requires AllAnchored(a, b)
    ensures Inv(b, now)
  {
    hide Integrity, FamiliesOk, RowsOk, Drawn, KeysOk, TokensSettle, SessionsBounded, AllAnchored;
    SettlingKeepsFamilies(a.tokens, b.tokens);
    SettlingKeepsRows(a, b, now);
  }
}

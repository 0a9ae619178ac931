/** The import itself: preflight loops, then the two write phases, with every flush
    recorded. */
module RealmImportService {
  import opened Prelude
  import opened RealmImport

  // ---------------------------------------------------------------- clients

  function ClientDocOf(docs: seq<ClientDoc>, key: string): (i: Option<nat>)
    ensures i.Some? ==> i.value < |docs| && docs[i.value].key == key
    ensures i.None? ==> forall k | 0 <= k < |docs| :: docs[k].key != key
  {
    if docs == [] then None
    else if docs[0].key == key then Some(0)
    else
      var rest := ClientDocOf(docs[1..], key);
      if rest.Some? then Some(rest.value + 1) else None
  }

  predicate HasClient(clients: Clients, key: string) { exists x | x in clients :: clients[x].key == key }

  function MergedClient(row: ClientRow, d: ClientDoc, salt: Id, preserve: bool): ClientRow {
    var isPublic := if "publicClient" in d.present then d.isPublic else row.isPublic;
    ClientRow(row.key, Overlay(row.fields, d.fields, d.present), isPublic,
              if preserve then row.secret
              else if isPublic then None
              else if d.secret.Some? then Some(Hash(d.secret.value, salt))
              else row.secret)
  }

  function CreatedClient(d: ClientDoc, salt: Id): ClientRow {
    ClientRow(d.key, d.fields, d.isPublic,
              if !d.isPublic && d.secret.Some? then Some(Hash(d.secret.value, salt)) else None)
  }

  function ClientsAt(clients: Clients, docs: seq<ClientDoc>, ids: seq<Id>, preserve: bool, n: nat): Clients
    requires Fresh(clients, ids, |docs|) && n <= |docs|
  {
    map x | x in clients.Keys + (set i | 0 <= i < n && !HasClient(clients, docs[i].key) :: ids[i]) ::
      if x in clients then
        var i := ClientDocOf(docs, clients[x].key);
        if i.Some? && i.value < n then MergedClient(clients[x], docs[i.value], ids[i.value], preserve) else clients[x]
      else
        var i :| 0 <= i < n && ids[i] == x;
        CreatedClient(docs[i], x)
  }

  /** The secret rules of the preflight for one client of the document. */
  predicate SecretOk(clients: Clients, d: ClientDoc, preserve: bool) {
    if HasClient(clients, d.key) then
      forall x | x in clients && clients[x].key == d.key ::
        var isPublic := if "publicClient" in d.present then d.isPublic else clients[x].isPublic;
        if isPublic then d.secret.None? else d.secret.Some? || preserve || clients[x].secret.Some?
    else d.isPublic <==> d.secret.None?
  }

  /** What becomes of a client that was there before: the fields that the document
      names, the old secret where credentials are preserved, no secret where it is
      public; an unlisted client is unchanged. */
  lemma ClientFinally(clients: Clients, docs: seq<ClientDoc>, ids: seq<Id>, preserve: bool, x: Id)
    requires DistinctClients(docs) && Fresh(clients, ids, |docs|) && x in clients
    ensures x in ClientsAt(clients, docs, ids, preserve, |docs|)
    ensures var was, row := clients[x], ClientsAt(clients, docs, ids, preserve, |docs|)[x];
            && row.key == was.key
            && ((forall i | 0 <= i < |docs| :: docs[i].key != was.key) ==> row == was)
            && (forall i | 0 <= i < |docs| && docs[i].key == was.key ::
                  && row.isPublic == (if "publicClient" in docs[i].present then docs[i].isPublic else was.isPublic)
                  && row.fields.Keys == was.fields.Keys
                  && (forall f | f in was.fields && (f !in docs[i].present || f !in docs[i].fields) ::
                        row.fields[f] == was.fields[f])
                  && (forall f | f in was.fields && f in docs[i].present && f in docs[i].fields ::
                        row.fields[f] == docs[i].fields[f])
                  && (preserve ==> row.secret == was.secret)
                  && (!preserve && row.isPublic ==> row.secret == None)
                  && (!preserve && !row.isPublic && docs[i].secret.None? ==> row.secret == was.secret)
                  && (!preserve && !row.isPublic && docs[i].secret.Some? ==>
                        row.secret == Some(Hash(docs[i].secret.value, ids[i]))))
  {
    hide ClientsAt, DistinctClients;
    OldClientAt(clients, docs, ids, preserve, |docs|, x);
    var j := ClientDocOf(docs, clients[x].key);
    if j.Some? { OnlyClientDoc(docs, j.value); }
  }

  /** Every client of the document that did not exist ends under its new identifier with
      the document's key, every field, its publicity, and a secret made from the
      document's exactly if it is confidential and one is given. */
  lemma CreatedClientFinally(clients: Clients, docs: seq<ClientDoc>, ids: seq<Id>, preserve: bool, i: nat)
    requires Fresh(clients, ids, |docs|) && i < |docs|
    requires forall x | x in clients :: clients[x].key != docs[i].key
    ensures ids[i] in ClientsAt(clients, docs, ids, preserve, |docs|)
    ensures var row, d := ClientsAt(clients, docs, ids, preserve, |docs|)[ids[i]], docs[i];
            && row.key == d.key && row.isPublic == d.isPublic && row.fields == d.fields
            && (row.secret.Some? <==> !d.isPublic && d.secret.Some?)
            && (row.secret.Some? ==> row.secret.value == Hash(d.secret.value, ids[i]))
  {
    hide ClientsAt;
    NewClientAt(clients, docs, ids, preserve, |docs|);
  }

  /** And nothing else is there: a row is an old one or one of those. */
  lemma OnlyListedClients(clients: Clients, docs: seq<ClientDoc>, ids: seq<Id>, preserve: bool, x: Id)
    requires Fresh(clients, ids, |docs|) && x in ClientsAt(clients, docs, ids, preserve, |docs|) && x !in clients
    ensures exists i :: 0 <= i < |docs| && ids[i] == x && forall y | y in clients :: clients[y].key != docs[i].key
  {
    hide ClientsAt;
    var i := CreatedFrom(clients, docs, ids, preserve, x);
    assert ids[i] == x;
  }

  lemma OnlyClientDoc(docs: seq<ClientDoc>, i: nat)
    requires DistinctClients(docs) && i < |docs|
    ensures forall k | 0 <= k < |docs| && docs[k].key == docs[i].key :: k == i
  {}

  /** After an import that does not preserve credentials every listed client has a
      secret exactly if it is confidential. */
  lemma SecretsConsistent(clients: Clients, docs: seq<ClientDoc>, ids: seq<Id>, i: nat)
    requires UniqueClients(clients) && DistinctClients(docs) && Fresh(clients, ids, |docs|) && i < |docs|
    requires SecretOk(clients, docs[i], false)
    ensures exists x :: x in ClientsAt(clients, docs, ids, false, |docs|)
                        && var row := ClientsAt(clients, docs, ids, false, |docs|)[x];
                           row.key == docs[i].key && (row.isPublic <==> row.secret.None?)
  {
    hide ClientsAt;
    if HasClient(clients, docs[i].key) {
      var x :| x in clients && clients[x].key == docs[i].key;
      assert ClientDocOf(docs, clients[x].key) == Some(i);
      OldClientAt(clients, docs, ids, false, |docs|, x);
    } else {
      NewClientAt(clients, docs, ids, false, |docs|);
      assert ids[i] in ClientsAt(clients, docs, ids, false, |docs|);
    }
  }

  lemma ClientNameOrigin(clients: Clients, docs: seq<ClientDoc>, ids: seq<Id>, preserve: bool, n: nat, x: Id)
    requires Fresh(clients, ids, |docs|) && n <= |docs| && x in ClientsAt(clients, docs, ids, preserve, n)
    ensures var row := ClientsAt(clients, docs, ids, preserve, n)[x];
            if x in clients then row.key == clients[x].key
            else exists i :: 0 <= i < n && ids[i] == x && docs[i].key == row.key && !HasClient(clients, docs[i].key)
  {
    hide Overlay, HasClient;
    if x !in clients {
      var i :| 0 <= i < n && !HasClient(clients, docs[i].key) && ids[i] == x;
    }
  }

  lemma ClientsStayUnique(clients: Clients, docs: seq<ClientDoc>, ids: seq<Id>, preserve: bool, n: nat)
    requires UniqueClients(clients) && DistinctClients(docs) && Fresh(clients, ids, |docs|) && n <= |docs|
    ensures UniqueClients(ClientsAt(clients, docs, ids, preserve, n))
  {
    hide ClientsAt;
    var after := ClientsAt(clients, docs, ids, preserve, n);
    forall x, y | x in after && y in after && after[x].key == after[y].key ensures x == y {
      ClientNameOrigin(clients, docs, ids, preserve, n, x);
      ClientNameOrigin(clients, docs, ids, preserve, n, y);
    }
  }

  // ---------------------------------------------------------------- importing clients twice

  predicate SameClientButSalt(a: ClientRow, b: ClientRow) {
    && b == a.(secret := b.secret) && (a.secret.Some? <==> b.secret.Some?)
    && (a.secret.Some? ==> a.secret.value.secret == b.secret.value.secret)
  }

  lemma MergingClientTwice(row: ClientRow, d: ClientDoc, first: Id, second: Id, preserve: bool)
    ensures SameClientButSalt(MergedClient(row, d, first, preserve),
                              MergedClient(MergedClient(row, d, first, preserve), d, second, preserve))
    ensures SameClientButSalt(CreatedClient(d, first), MergedClient(CreatedClient(d, first), d, second, preserve))
  {
    var once := Overlay(row.fields, d.fields, d.present);
    assert Overlay(once, d.fields, d.present) == once;
    assert Overlay(d.fields, d.fields, d.present) == d.fields;
  }

  /** Importing the same clients again changes nothing but salts, and unlisted
      clients are untouched by either import. */
  lemma ClientImportIsIdempotent(clients: Clients, docs: seq<ClientDoc>, first: seq<Id>, second: seq<Id>,
                                 preserve: bool, x: Id)
    requires DistinctClients(docs) && Fresh(clients, first, |docs|)
    requires Fresh(ClientsAt(clients, docs, first, preserve, |docs|), second, |docs|)
    requires x in ClientsAt(clients, docs, first, preserve, |docs|)
    ensures var once := ClientsAt(clients, docs, first, preserve, |docs|);
            var twice := ClientsAt(once, docs, second, preserve, |docs|);
            && x in twice && SameClientButSalt(once[x], twice[x])
            && (ClientDocOf(docs, once[x].key).None? ==> x in clients && twice[x] == once[x] == clients[x])
  {
    hide ClientsAt, MergedClient, CreatedClient, HasClient, SameClientButSalt;
    var once := ClientsAt(clients, docs, first, preserve, |docs|);
    OldClientAt(once, docs, second, preserve, |docs|, x);
    ClientNameOrigin(clients, docs, first, preserve, |docs|, x);
    var j := ClientDocOf(docs, once[x].key);
    if x in clients {
      OldClientAt(clients, docs, first, preserve, |docs|, x);
      if j.Some? { MergingClientTwice(clients[x], docs[j.value], first[j.value], second[j.value], preserve); }
      else { SameClient(once[x]); }
    } else {
      var i := CreatedFrom(clients, docs, first, preserve, x);
      assert j == Some(i);
      MergingClientTwice(once[x], docs[i], first[i], second[i], preserve);
    }
  }

  lemma SameClient(row: ClientRow)
    ensures SameClientButSalt(row, row)
  {}

  /** The client of the document that a new row was created from. */
  lemma CreatedFrom(clients: Clients, docs: seq<ClientDoc>, ids: seq<Id>, preserve: bool, x: Id) returns (i: nat)
    requires Fresh(clients, ids, |docs|) && x !in clients && x in ClientsAt(clients, docs, ids, preserve, |docs|)
    ensures i < |docs| && ids[i] == x && !HasClient(clients, docs[i].key)
    ensures ClientsAt(clients, docs, ids, preserve, |docs|)[x] == CreatedClient(docs[i], x)
    ensures ClientsAt(clients, docs, ids, preserve, |docs|)[x].key == docs[i].key
  {
    hide ClientsAt, HasClient;
    NewClientAt(clients, docs, ids, preserve, |docs|);
    i :| 0 <= i < |docs| && !HasClient(clients, docs[i].key) && ids[i] == x;
  }

  // ---------------------------------------------------------------- one step of each loop

  function UserAt(users: Users, key: string): (x: Option<Id>)
    requires UniqueNames(users)
    ensures x.Some? <==> Exists(users, key)
    ensures x.Some? ==> x.value in users && users[x.value].key == key
  {
    if y: Id :| y in users && users[y].key == key then
      assert forall z | z in users && users[z].key == key :: z == y;
      Some(y)
    else None
  }

  function ClientAt(clients: Clients, key: string): (x: Option<Id>)
    requires UniqueClients(clients)
    ensures x.Some? <==> HasClient(clients, key)
    ensures x.Some? ==> x.value in clients && clients[x.value].key == key
  {
    if y: Id :| y in clients && clients[y].key == key then
      assert forall z | z in clients && clients[z].key == key :: z == y;
      Some(y)
    else None
  }

  lemma ReleasedThenMerged(row: UserRow, d: UserDoc, salt: Id, preserve: bool)
    ensures Merged(Released(row, d), d, salt, preserve) == Merged(row, d, salt, preserve)
  {}

  lemma UserRowStep(users: Users, docs: seq<UserDoc>, ids: seq<Id>, preserve: bool, n: nat, x: Id)
    requires DistinctUsers(docs) && Fresh(users, ids, |docs|) && n < |docs| && x in users
    ensures var now, next := StateAt(users, docs, ids, preserve, n), StateAt(users, docs, ids, preserve, n + 1);
            && x in now && x in next
            && next[x] == if users[x].key == docs[n].key then Merged(now[x], docs[n], ids[n], preserve) else now[x]
  {
    hide StateAt, Merged, Created, Released;
    OldRowAt(users, docs, ids, preserve, n, x);
    OldRowAt(users, docs, ids, preserve, n + 1, x);
    ReleasedThenMerged(users[x], docs[n], ids[n], preserve);
  }

  lemma UserRowsStep(users: Users, docs: seq<UserDoc>, ids: seq<Id>, preserve: bool, n: nat)
    requires DistinctUsers(docs) && Fresh(users, ids, |docs|) && n < |docs|
    ensures var now, next := StateAt(users, docs, ids, preserve, n), StateAt(users, docs, ids, preserve, n + 1);
            forall x | x in users ::
              x in now && x in next
              && next[x] == if users[x].key == docs[n].key then Merged(now[x], docs[n], ids[n], preserve) else now[x]
  {
    hide StateAt, Merged, DistinctUsers;
    forall x | x in users
      ensures var now, next := StateAt(users, docs, ids, preserve, n), StateAt(users, docs, ids, preserve, n + 1);
              x in now && x in next
              && next[x] == if users[x].key == docs[n].key then Merged(now[x], docs[n], ids[n], preserve) else now[x]
    {
      UserRowStep(users, docs, ids, preserve, n, x);
    }
  }

  lemma NewUsersStep(users: Users, docs: seq<UserDoc>, ids: seq<Id>, preserve: bool, n: nat)
    requires Fresh(users, ids, |docs|) && n < |docs|
    ensures var now, next := StateAt(users, docs, ids, preserve, n), StateAt(users, docs, ids, preserve, n + 1);
            && (forall x | x in now && x !in users :: x in next && next[x] == now[x])
            && (!Exists(users, docs[n].key) ==> ids[n] in next && next[ids[n]] == Created(docs[n], ids[n]))
  {
    hide StateAt, Created, Exists;
    StateFacts(users, docs, ids, preserve, n);
    StateFacts(users, docs, ids, preserve, n + 1);
  }

  lemma UserStep(users: Users, docs: seq<UserDoc>, ids: seq<Id>, preserve: bool, n: nat)
    requires UniqueNames(users) && DistinctUsers(docs) && Fresh(users, ids, |docs|) && n < |docs|
    ensures var now, next := StateAt(users, docs, ids, preserve, n), StateAt(users, docs, ids, preserve, n + 1);
            var x := UserAt(users, docs[n].key);
            if x.Some?
            then x.value in now && next == now[x.value := Merged(now[x.value], docs[n], ids[n], preserve)]
            else next == now[ids[n] := Created(docs[n], ids[n])]
  {
    hide StateAt, Merged, Created, Exists, UserAt, DistinctUsers;
    var now, next := StateAt(users, docs, ids, preserve, n), StateAt(users, docs, ids, preserve, n + 1);
    UserRowsStep(users, docs, ids, preserve, n);
    NewUsersStep(users, docs, ids, preserve, n);
    StepKeys(users, docs, ids, preserve, n);
    var x := UserAt(users, docs[n].key);
    if x.Some? {
      assert next == now[x.value := Merged(now[x.value], docs[n], ids[n], preserve)];
    } else {
      NobodyNamed(users, docs[n].key);
      assert next == now[ids[n] := Created(docs[n], ids[n])];
    }
  }

  lemma NobodyNamed(users: Users, key: string)
    requires !Exists(users, key)
    ensures forall x | x in users :: users[x].key != key
  {}

  lemma StepKeys(users: Users, docs: seq<UserDoc>, ids: seq<Id>, preserve: bool, n: nat)
    requires Fresh(users, ids, |docs|) && n < |docs|
    ensures StateAt(users, docs, ids, preserve, n + 1).Keys ==
            StateAt(users, docs, ids, preserve, n).Keys + (if Exists(users, docs[n].key) then {} else {ids[n]})
  {
    hide Merged, Released, Created, DocOf, Exists;
  }

  lemma OldClientAt(clients: Clients, docs: seq<ClientDoc>, ids: seq<Id>, preserve: bool, n: nat, x: Id)
    requires Fresh(clients, ids, |docs|) && n <= |docs| && x in clients
    ensures var i := ClientDocOf(docs, clients[x].key); var after := ClientsAt(clients, docs, ids, preserve, n);
            x in after && after[x] ==
              if i.Some? && i.value < n then MergedClient(clients[x], docs[i.value], ids[i.value], preserve)
              else clients[x]
  {
    hide MergedClient, CreatedClient, ClientDocOf, HasClient;
  }

  lemma NewClientAt(clients: Clients, docs: seq<ClientDoc>, ids: seq<Id>, preserve: bool, n: nat)
    requires Fresh(clients, ids, |docs|) && n <= |docs|
    ensures forall i | 0 <= i < n && !HasClient(clients, docs[i].key) ::
      ids[i] in ClientsAt(clients, docs, ids, preserve, n)
      && ClientsAt(clients, docs, ids, preserve, n)[ids[i]] == CreatedClient(docs[i], ids[i])
    ensures forall x :: x in ClientsAt(clients, docs, ids, preserve, n) <==>
      x in clients || exists i :: 0 <= i < n && !HasClient(clients, docs[i].key) && ids[i] == x
  {
    hide MergedClient, CreatedClient, ClientDocOf, HasClient;
  }

  lemma ClientKeys(clients: Clients, docs: seq<ClientDoc>, ids: seq<Id>, preserve: bool, n: nat)
    requires Fresh(clients, ids, |docs|) && n < |docs|
    ensures ClientsAt(clients, docs, ids, preserve, n + 1).Keys ==
            ClientsAt(clients, docs, ids, preserve, n).Keys + (if HasClient(clients, docs[n].key) then {} else {ids[n]})
  {
    hide MergedClient, CreatedClient, ClientDocOf, HasClient;
  }

  lemma ClientRowStep(clients: Clients, docs: seq<ClientDoc>, ids: seq<Id>, preserve: bool, n: nat, x: Id)
    requires DistinctClients(docs) && Fresh(clients, ids, |docs|) && n < |docs| && x in clients
    ensures var now, next := ClientsAt(clients, docs, ids, preserve, n), ClientsAt(clients, docs, ids, preserve, n + 1);
            && x in now && x in next
            && next[x] == (if clients[x].key == docs[n].key
                           then MergedClient(now[x], docs[n], ids[n], preserve) else now[x])
  {
    hide ClientsAt, MergedClient;
    OldClientAt(clients, docs, ids, preserve, n, x);
    OldClientAt(clients, docs, ids, preserve, n + 1, x);
  }

  lemma ClientStep(clients: Clients, docs: seq<ClientDoc>, ids: seq<Id>, preserve: bool, n: nat)
    requires UniqueClients(clients) && DistinctClients(docs) && Fresh(clients, ids, |docs|) && n < |docs|
    ensures var now, next := ClientsAt(clients, docs, ids, preserve, n), ClientsAt(clients, docs, ids, preserve, n + 1);
            var x := ClientAt(clients, docs[n].key);
            if x.Some?
            then x.value in now && next == now[x.value := MergedClient(now[x.value], docs[n], ids[n], preserve)]
            else next == now[ids[n] := CreatedClient(docs[n], ids[n])]
  {
    hide ClientsAt, MergedClient, CreatedClient, HasClient, ClientAt;
    var now, next := ClientsAt(clients, docs, ids, preserve, n), ClientsAt(clients, docs, ids, preserve, n + 1);
    NewClientAt(clients, docs, ids, preserve, n);
    NewClientAt(clients, docs, ids, preserve, n + 1);
    forall x | x in clients
      ensures next[x] == (if clients[x].key == docs[n].key
                          then MergedClient(now[x], docs[n], ids[n], preserve) else now[x])
    {
      ClientRowStep(clients, docs, ids, preserve, n, x);
    }
    ClientKeys(clients, docs, ids, preserve, n);
    var x := ClientAt(clients, docs[n].key);
    if x.Some? {
      assert next == now[x.value := MergedClient(now[x.value], docs[n], ids[n], preserve)];
    } else {
      NoClientNamed(clients, docs[n].key);
      assert next == now[ids[n] := CreatedClient(docs[n], ids[n])];
    }
  }

  lemma NoClientNamed(clients: Clients, key: string)
    requires !HasClient(clients, key)
    ensures forall x | x in clients :: clients[x].key != key
  {}

  // ---------------------------------------------------------------- the service

  datatype Verdict = Accepted | Invalid | ClientExists

  /** Every condition of the preflight but the one on creation only. */
  ghost predicate Acceptable(users: Users, clients: Clients, userDocs: seq<UserDoc>, clientDocs: seq<ClientDoc>,
                             preserve: bool, policy: string -> bool)
  {
    && (forall i | 0 <= i < |clientDocs| :: SecretOk(clients, clientDocs[i], preserve))
    && (forall i | 0 <= i < |userDocs| :: PasswordOk(users, userDocs[i], preserve, policy))
    && NoConflict(users, userDocs)
  }

  predicate PasswordOk(users: Users, d: UserDoc, preserve: bool, policy: string -> bool) {
    d.credential.Some? && !(preserve && Exists(users, d.key)) ==> policy(d.credential.value)
  }

  /** How a client of the document may end: a public one is given no secret, and a
      confidential one has a secret, unless it was there before and credentials are
      preserved. */
  predicate ClientFits(before: Clients, after: Clients, d: ClientDoc, preserve: bool) {
    forall x | x in after && after[x].key == d.key ::
      if after[x].isPublic then d.secret == None else after[x].secret != None || (preserve && x in before)
  }

  lemma OneFits(before: Clients, after: Clients, d: ClientDoc, preserve: bool, x: Id)
    requires UniqueClients(after) && x in after && after[x].key == d.key
    ensures ClientFits(before, after, d, preserve) <==>
      if after[x].isPublic then d.secret == None else after[x].secret != None || (preserve && x in before)
  {}

  lemma OneSecret(clients: Clients, d: ClientDoc, preserve: bool, x: Id)
    requires UniqueClients(clients) && x in clients && clients[x].key == d.key
    ensures SecretOk(clients, d, preserve) <==>
      if (if "publicClient" in d.present then d.isPublic else clients[x].isPublic) then d.secret.None?
      else d.secret.Some? || preserve || clients[x].secret.Some?
  {}

  lemma ClientFitsIff(clients: Clients, docs: seq<ClientDoc>, ids: seq<Id>, preserve: bool, i: nat)
    requires UniqueClients(clients) && DistinctClients(docs) && Fresh(clients, ids, |docs|) && i < |docs|
    ensures SecretOk(clients, docs[i], preserve)
            <==> ClientFits(clients, ClientsAt(clients, docs, ids, preserve, |docs|), docs[i], preserve)
  {
    var after := ClientsAt(clients, docs, ids, preserve, |docs|);
    hide ClientsAt, DistinctClients, ClientFits, SecretOk, UniqueClients;
    ClientsStayUnique(clients, docs, ids, preserve, |docs|);
    if HasClient(clients, docs[i].key) {
      var x :| x in clients && clients[x].key == docs[i].key;
      ClientFinally(clients, docs, ids, preserve, x);
      OneFits(clients, after, docs[i], preserve, x);
      OneSecret(clients, docs[i], preserve, x);
    } else {
      CreatedClientFinally(clients, docs, ids, preserve, i);
      OneFits(clients, after, docs[i], preserve, ids[i]);
      NewSecret(clients, docs[i], preserve);
    }
  }

  lemma NewSecret(clients: Clients, d: ClientDoc, preserve: bool)
    requires !HasClient(clients, d.key)
    ensures SecretOk(clients, d, preserve) <==> (d.isPublic <==> d.secret.None?)
  {}

  /** The preflight accepts exactly the documents whose result is in order: addresses
      with one owner each, a password that passes the policy wherever one is set, and
      secrets that fit the publicity of the clients. */
  lemma AcceptableIff(users: Users, clients: Clients, userDocs: seq<UserDoc>, clientDocs: seq<ClientDoc>,
                      userIds: seq<Id>, clientIds: seq<Id>, preserve: bool, policy: string -> bool)
    requires UniqueNames(users) && UniqueEmails(users) && UniqueClients(clients)
    requires DistinctUsers(userDocs) && DistinctClients(clientDocs)
    requires Fresh(users, userIds, |userDocs|) && Fresh(clients, clientIds, |clientDocs|)
    ensures Acceptable(users, clients, userDocs, clientDocs, preserve, policy) <==>
      && UniqueEmails(Imported(users, userDocs, userIds, preserve))
      && (forall i | 0 <= i < |userDocs| && userDocs[i].credential.Some?
                     && (!preserve || forall x | x in users :: users[x].key != userDocs[i].key) ::
            policy(userDocs[i].credential.value))
      && (forall i | 0 <= i < |clientDocs| ::
            ClientFits(clients, ClientsAt(clients, clientDocs, clientIds, preserve, |clientDocs|), clientDocs[i],
                       preserve))
  {
    hide UniqueNames, UniqueEmails, UniqueClients, DistinctUsers, DistinctClients, NoConflict, ClientFits, ClientsAt,
         SecretOk, Imported;
    NoConflictIff(users, userDocs, userIds, preserve);
    forall i | 0 <= i < |clientDocs|
      ensures SecretOk(clients, clientDocs[i], preserve)
              <==> ClientFits(clients, ClientsAt(clients, clientDocs, clientIds, preserve, |clientDocs|),
                              clientDocs[i], preserve)
    {
      ClientFitsIff(clients, clientDocs, clientIds, preserve, i);
    }
  }

  /** Both tables at every flush satisfied their unique constraints. */
  ghost predicate FlushesUnique(flushes: seq<(Users, Clients)>) {
    forall i | 0 <= i < |flushes| ::
      UniqueNames(flushes[i].0) && UniqueEmails(flushes[i].0) && UniqueClients(flushes[i].1)
  }

  class RealmImporter {
    var users: Users
    var clients: Clients
    ghost var flushes: seq<(Users, Clients)>

    constructor (users: Users, clients: Clients)
      ensures this.users == users && this.clients == clients && flushes == []
    {
      this.users, this.clients, flushes := users, clients, [];
    }

    /** The client loop of `_preflight`. */
    method CheckClients(docs: seq<ClientDoc>, preserve: bool, createOnly: bool) returns (verdict: Verdict)
      requires UniqueClients(clients)
      ensures verdict == ClientExists <==> createOnly && exists i :: 0 <= i < |docs| && HasClient(clients, docs[i].key)
      ensures verdict != ClientExists ==>
        (verdict == Accepted <==> forall i | 0 <= i < |docs| :: SecretOk(clients, docs[i], preserve))
    {
      hide SecretOk, HasClient;
      verdict := Accepted;
      var i := 0;
      while i < |docs|
        invariant i <= |docs| && verdict != ClientExists
        invariant createOnly ==> forall k | 0 <= k < i :: !HasClient(clients, docs[k].key)
        invariant verdict == Accepted <==> forall k | 0 <= k < i :: SecretOk(clients, docs[k], preserve)
      {
        var existing := ClientAt(clients, docs[i].key);
        if existing.Some? && createOnly {
          return ClientExists;
        }
        var isPublic := if existing.None? || "publicClient" in docs[i].present then docs[i].isPublic
                        else clients[existing.value].isPublic;
        var wrong := if isPublic then docs[i].secret.Some?
                     else
                       && docs[i].secret.None?
                       && (existing.None? || (!preserve && clients[existing.value].secret.None?));
        SecretDecided(clients, docs[i], preserve, existing, isPublic);
        if wrong {
          verdict := Invalid;
        }
        i := i + 1;
      }
    }

    /** The first e-mail loop of `_preflight`: the addresses that stay, by owner. */
    method StayingEmails(docs: seq<UserDoc>) returns (emails: map<string, string>)
      requires UniqueEmails(users)
      ensures IsStaying(users, docs, emails)
    {
      hide Keeps, Exists, DocOf;
      emails := map[];
      var left := users.Keys;
      while left != {}
        invariant left <= users.Keys
        invariant forall x | x in users && x !in left && Stays(users[x], docs) ::
          users[x].email.value in emails && emails[users[x].email.value] == users[x].key
        invariant forall e | e in emails ::
          exists x :: x in users && x !in left && Stays(users[x], docs)
                      && users[x].email == Some(e) && users[x].key == emails[e]
        decreases left
      {
        var x :| x in left;
        KeepsDecided(users[x], docs);
        var change := DocOf(docs, users[x].key);
        if (change.None? || "email" !in docs[change.value].present)
           && users[x].email.Some? && users[x].email.value != ""
        {
          emails := emails[users[x].email.value := users[x].key];
        }
        left := left - {x};
      }
    }

    /** The second e-mail loop: a conflict with each address that the document assigns. */
    method CheckEmails(docs: seq<UserDoc>) returns (ok: bool)
      requires UniqueNames(users) && UniqueEmails(users) && DistinctUsers(docs)
      ensures ok <==> NoConflict(users, docs)
    {
      hide Assigns, Exists, UniqueNames, UniqueEmails, IsStaying;
      var emails := StayingEmails(docs);
      ghost var kept := emails;
      ok := true;
      var i := 0;
      while i < |docs|
        invariant i <= |docs|
        invariant forall e | e in kept :: e in emails
        invariant ok ==> forall e | e in kept :: emails[e] == kept[e]
        invariant forall e | e in emails && e !in kept ::
          exists k :: 0 <= k < i && docs[k].email == Some(e) && emails[e] == docs[k].key
        invariant ok <==> forall k | 0 <= k < i :: !Conflicts(users, docs[k], kept)
      {
        AssignsDecided(users, docs[i]);
        var existing := UserAt(users, docs[i].key);
        if (existing.None? || "email" in docs[i].present) && docs[i].email.Some? {
          var e := docs[i].email.value;
          if e in emails && emails[e] != docs[i].key {
            ok := false;
          } else {
            emails := emails[e := docs[i].key];
          }
        }
        i := i + 1;
      }
      ConflictDecided(users, docs, kept);
    }

    /** The release phase: changing addresses are set to null, then flushed together. */
    method ReleaseEmails(docs: seq<UserDoc>, ids: seq<Id>, preserve: bool)
      requires UniqueNames(users) && DistinctUsers(docs) && Fresh(users, ids, |docs|)
      modifies this
      ensures users == StateAt(old(users), docs, ids, preserve, 0) && clients == old(clients)
      ensures flushes == old(flushes) + [(users, clients)]
    {
      hide StateAt, Released, Merged, Created, Exists, ReleasedUpTo, DistinctUsers;
      var base := users;
      NothingReleased(users, docs);
      var i := 0;
      while i < |docs|
        invariant i <= |docs| && users.Keys == base.Keys && clients == old(clients) && flushes == old(flushes)
        invariant forall x | x in base :: users[x] == ReleasedUpTo(base[x], docs, i)
      {
        forall x | x in base
          ensures ReleasedUpTo(base[x], docs, i + 1) ==
            if base[x].key == docs[i].key then Released(ReleasedUpTo(base[x], docs, i), docs[i])
            else ReleasedUpTo(base[x], docs, i)
        {
          ReleaseStep(base[x], docs, i);
        }
        var existing := UserAt(base, docs[i].key);
        if existing.Some? {
          ReleasedDecided(users[existing.value], docs[i]);
          if "email" in docs[i].present && users[existing.value].email != docs[i].email {
            users := users[existing.value := users[existing.value].(email := None)];
          }
        } else {
          NobodyNamed(base, docs[i].key);
        }
        i := i + 1;
      }
      flushes := flushes + [(users, clients)];
      ReleasedIsStart(base, users, docs, ids, preserve);
    }

    method ApplyClients(docs: seq<ClientDoc>, ids: seq<Id>, preserve: bool)
      requires UniqueClients(clients) && DistinctClients(docs) && Fresh(clients, ids, |docs|)
      requires UniqueNames(users) && UniqueEmails(users) && FlushesUnique(flushes)
      modifies this
      ensures clients == ClientsAt(old(clients), docs, ids, preserve, |docs|) && users == old(users)
      ensures FlushesUnique(flushes) && old(flushes) <= flushes
    {
      hide ClientsAt, MergedClient, CreatedClient, UniqueNames, UniqueEmails, UniqueClients;
      var base := clients;
      NoClientsYet(base, docs, ids, preserve);
      var i := 0;
      while i < |docs|
        invariant i <= |docs| && users == old(users)
        invariant clients == ClientsAt(base, docs, ids, preserve, i)
        invariant FlushesUnique(flushes) && old(flushes) <= flushes
      {
        var existing := ClientAt(base, docs[i].key);
        ClientStep(base, docs, ids, preserve, i);
        ClientsStayUnique(base, docs, ids, preserve, i + 1);
        if existing.Some? {
          clients := clients[existing.value := MergedClient(clients[existing.value], docs[i], ids[i], preserve)];
        } else {
          clients := clients[ids[i] := CreatedClient(docs[i], ids[i])];
        }
        flushes := flushes + [(users, clients)];
        i := i + 1;
      }
    }

    /** The assignment phase, one user and one flush at a time. */
    method ApplyUsers(ghost base: Users, docs: seq<UserDoc>, ids: seq<Id>, preserve: bool)
      requires UniqueNames(base) && UniqueEmails(base) && DistinctUsers(docs) && Fresh(base, ids, |docs|)
      requires NoConflict(base, docs) && users == StateAt(base, docs, ids, preserve, 0)
      requires UniqueClients(clients) && FlushesUnique(flushes)
      modifies this
      ensures users == Imported(base, docs, ids, preserve) && clients == old(clients)
      ensures FlushesUnique(flushes) && old(flushes) <= flushes
    {
      hide StateAt, Merged, Created, NoConflict, UniqueNames, UniqueEmails, UniqueClients;
      var i := 0;
      while i < |docs|
        invariant i <= |docs| && clients == old(clients)
        invariant users == StateAt(base, docs, ids, preserve, i)
        invariant FlushesUnique(flushes) && old(flushes) <= flushes
      {
        NamesStayUnique(base, docs, ids, preserve, i);
        SameUserAt(base, docs, ids, preserve, i);
        var existing := UserAt(users, docs[i].key);
        UserStep(base, docs, ids, preserve, i);
        NamesStayUnique(base, docs, ids, preserve, i + 1);
        EmailsStayUnique(base, docs, ids, preserve, i + 1);
        if existing.Some? {
          users := users[existing.value := Merged(users[existing.value], docs[i], ids[i], preserve)];
        } else {
          users := users[ids[i] := Created(docs[i], ids[i])];
        }
        flushes := flushes + [(users, clients)];
        i := i + 1;
      }
    }

    /** `import_realm` for the users and clients of a realm: refused imports change
        nothing; accepted ones end in the final state of the document, and every flush
        on the way satisfies every unique constraint. */
    method Import(userDocs: seq<UserDoc>, clientDocs: seq<ClientDoc>, userIds: seq<Id>, clientIds: seq<Id>,
                  preserve: bool, createOnly: bool, policy: string -> bool) returns (verdict: Verdict)
      requires UniqueNames(users) && UniqueEmails(users) && UniqueClients(clients)
      requires DistinctUsers(userDocs) && DistinctClients(clientDocs)
      requires Fresh(users, userIds, |userDocs|) && Fresh(clients, clientIds, |clientDocs|) && flushes == []
      modifies this
      ensures verdict == ClientExists <==>
        createOnly && exists i :: 0 <= i < |clientDocs| && HasClient(old(clients), clientDocs[i].key)
      ensures verdict != ClientExists ==>
        (verdict == Accepted <==> Acceptable(old(users), old(clients), userDocs, clientDocs, preserve, policy))
      ensures verdict == Accepted ==>
        && users == Imported(old(users), userDocs, userIds, preserve)
        && clients == ClientsAt(old(clients), clientDocs, clientIds, preserve, |clientDocs|)
      ensures verdict != Accepted ==> users == old(users) && clients == old(clients)
      ensures FlushesUnique(flushes)
    {
      hide StateAt, ClientsAt, NoConflict, SecretOk, PasswordOk, HasClient, UniqueNames, UniqueEmails, UniqueClients;
      ghost var base := users;
      verdict := CheckClients(clientDocs, preserve, createOnly);
      if verdict == ClientExists {
        return;
      }
      var i := 0;
      ghost var secrets := verdict == Accepted;
      while i < |userDocs|
        invariant i <= |userDocs| && users == base && clients == old(clients) && flushes == []
        invariant verdict != ClientExists
        invariant verdict == Accepted <==>
          secrets && forall k | 0 <= k < i :: PasswordOk(users, userDocs[k], preserve, policy)
      {
        var ok := CheckPassword(userDocs[i], preserve, policy);
        if !ok {
          verdict := Invalid;
        }
        i := i + 1;
      }
      var emailsOk := CheckEmails(userDocs);
      if !emailsOk {
        verdict := Invalid;
      }
      if verdict != Accepted {
        return;
      }
      ReleaseEmails(userDocs, userIds, preserve);
      NamesStayUnique(base, userDocs, userIds, preserve, 0);
      EmailsStayUnique(base, userDocs, userIds, preserve, 0);
      ApplyClients(clientDocs, clientIds, preserve);
      ClientsStayUnique(old(clients), clientDocs, clientIds, preserve, |clientDocs|);
      ApplyUsers(base, userDocs, userIds, preserve);
    }

    method CheckPassword(d: UserDoc, preserve: bool, policy: string -> bool) returns (ok: bool)
      requires UniqueNames(users)
      ensures ok <==> PasswordOk(users, d, preserve, policy)
    {
      var existing := UserAt(users, d.key);
      ok := d.credential.None? || (preserve && existing.Some?) || policy(d.credential.value);
    }
  }

  // ---------------------------------------------------------------- lemmas of the loops

  lemma SecretDecided(clients: Clients, d: ClientDoc, preserve: bool, existing: Option<Id>, isPublic: bool)
    requires UniqueClients(clients) && existing == ClientAt(clients, d.key)
    requires isPublic == if existing.None? || "publicClient" in d.present then d.isPublic
                         else clients[existing.value].isPublic
    ensures SecretOk(clients, d, preserve) <==>
      !(if isPublic then d.secret.Some?
        else d.secret.None? && (existing.None? || (!preserve && clients[existing.value].secret.None?)))
  {}

  /** The document leaves this address alone and there is one. */
  predicate Stays(row: UserRow, docs: seq<UserDoc>) {
    row.email.Some? && row.email.value != "" && Keeps(row, docs)
  }

  lemma KeepsDecided(row: UserRow, docs: seq<UserDoc>)
    ensures Keeps(row, docs) <==>
      var change := DocOf(docs, row.key); change.None? || "email" !in docs[change.value].present
  {}

  lemma AssignsDecided(users: Users, d: UserDoc)
    requires UniqueNames(users)
    ensures Assigns(users, d) <==>
      d.email.Some? && (UserAt(users, d.key).None? || "email" in d.present)
  {}

  /** The addresses that stay, each with the name of its owner. */
  ghost predicate IsStaying(users: Users, docs: seq<UserDoc>, kept: map<string, string>) {
    && (forall x | x in users && Stays(users[x], docs) ::
          users[x].email.value in kept && kept[users[x].email.value] == users[x].key)
    && (forall e | e in kept ::
          exists x :: x in users && Stays(users[x], docs) && users[x].email == Some(e) && users[x].key == kept[e])
  }

  /** The document assigns an address that stays with another user. */
  predicate Conflicts(users: Users, d: UserDoc, kept: map<string, string>) {
    Assigns(users, d) && d.email.Some? && d.email.value in kept && kept[d.email.value] != d.key
  }

  lemma ConflictDecided(users: Users, docs: seq<UserDoc>, kept: map<string, string>)
    requires DistinctUsers(docs) && IsStaying(users, docs, kept)
    ensures (forall k | 0 <= k < |docs| :: !Conflicts(users, docs[k], kept)) <==> NoConflict(users, docs)
  {
    hide Keeps, Exists;
    forall k | 0 <= k < |docs| && Conflicts(users, docs[k], kept) ensures !NoConflict(users, docs) {
      var e := docs[k].email.value;
      assert e in kept;
      var x :| x in users && Stays(users[x], docs) && users[x].email == Some(e) && users[x].key == kept[e];
      assert Keeps(users[x], docs);
    }
    if !NoConflict(users, docs) {
      var i, x :| 0 <= i < |docs| && x in users && Assigns(users, docs[i]) && Keeps(users[x], docs)
                  && users[x].key != docs[i].key && users[x].email == docs[i].email;
      assert Stays(users[x], docs);
      assert Conflicts(users, docs[i], kept);
    }
  }

  /** A row once the first `n` users of the document have released their address. */
  function ReleasedUpTo(row: UserRow, docs: seq<UserDoc>, n: nat): UserRow {
    var i := DocOf(docs, row.key);
    if i.Some? && i.value < n then Released(row, docs[i.value]) else row
  }

  lemma ReleaseStep(row: UserRow, docs: seq<UserDoc>, n: nat)
    requires DistinctUsers(docs) && n < |docs|
    ensures ReleasedUpTo(row, docs, n + 1) ==
      if row.key == docs[n].key then Released(ReleasedUpTo(row, docs, n), docs[n]) else ReleasedUpTo(row, docs, n)
  {
    hide Released;
    if row.key == docs[n].key { assert DocOf(docs, row.key) == Some(n); }
  }

  lemma ReleasedDecided(row: UserRow, d: UserDoc)
    ensures Released(row, d) ==
      if "email" in d.present && row.email != d.email then row.(email := None) else row
  {}

  lemma NothingReleased(users: Users, docs: seq<UserDoc>)
    ensures forall x | x in users :: ReleasedUpTo(users[x], docs, 0) == users[x]
  {}

  lemma ReleasedIsStart(base: Users, after: Users, docs: seq<UserDoc>, ids: seq<Id>, preserve: bool)
    requires Fresh(base, ids, |docs|) && after.Keys == base.Keys
    requires forall x | x in base :: after[x] == ReleasedUpTo(base[x], docs, |docs|)
    ensures after == StateAt(base, docs, ids, preserve, 0)
  {
    hide Released, Merged, Created, DocOf, Exists;
  }

  lemma NoClientsYet(clients: Clients, docs: seq<ClientDoc>, ids: seq<Id>, preserve: bool)
    requires Fresh(clients, ids, |docs|)
    ensures ClientsAt(clients, docs, ids, preserve, 0) == clients
  {
    hide MergedClient, CreatedClient;
  }

  /** The users looked up in the preflight are found again in every later state. */
  lemma SameUserAt(users: Users, docs: seq<UserDoc>, ids: seq<Id>, preserve: bool, n: nat)
    requires UniqueNames(users) && DistinctUsers(docs) && Fresh(users, ids, |docs|) && n < |docs|
    requires UniqueNames(StateAt(users, docs, ids, preserve, n))
    ensures UserAt(StateAt(users, docs, ids, preserve, n), docs[n].key) == UserAt(users, docs[n].key)
  {
    hide StateAt;
    var now := StateAt(users, docs, ids, preserve, n);
    StateFacts(users, docs, ids, preserve, n);
    var x, y := UserAt(users, docs[n].key), UserAt(now, docs[n].key);
    if y.Some? {
      NameOrigin(users, docs, ids, preserve, n, y.value);
    }
    if x.Some? {
      assert x.value in now && now[x.value].key == docs[n].key;
    }
  }
}

/** Importing the users and clients of a realm document: a preflight over the final
    state, then a write in two phases that may permute unique e-mail addresses. */
module RealmImport {
  import opened Prelude

  /** A stored hash: the secret it was made from and its salt. */
  datatype Hash = Hash(secret: string, salt: Id)

  /** `key` is the normalized name, `email` the normalized address. */
  datatype UserRow = UserRow(key: string, fields: map<string, string>, email: Option<string>, password: Option<Hash>)

  /** One user of the document; `present` are the fields it names. */
  datatype UserDoc = UserDoc(
    key: string, fields: map<string, string>, email: Option<string>, present: set<string>, credential: Option<string>)

  datatype ClientRow = ClientRow(key: string, fields: map<string, string>, isPublic: bool, secret: Option<Hash>)

  datatype ClientDoc = ClientDoc(
    key: string, fields: map<string, string>, isPublic: bool, present: set<string>, secret: Option<string>)

  type Users = map<Id, UserRow>
  type Clients = map<Id, ClientRow>

  // ---------------------------------------------------------------- constraints

  predicate UniqueNames(users: Users) {
    forall x, y | x in users && y in users && users[x].key == users[y].key :: x == y
  }

  predicate UniqueEmails(users: Users) {
    forall x, y | x in users && y in users && users[x].email.Some? && users[x].email == users[y].email :: x == y
  }

  predicate UniqueClients(clients: Clients) {
    forall x, y | x in clients && y in clients && clients[x].key == clients[y].key :: x == y
  }

  /** What validation of the document guarantees: no name and no address twice, and
      no empty address. */
  predicate DistinctUsers(docs: seq<UserDoc>) {
    && (forall i, j | 0 <= i < j < |docs| :: docs[i].key != docs[j].key)
    && (forall i, j | 0 <= i < j < |docs| && docs[i].email.Some? :: docs[i].email != docs[j].email)
    && (forall i | 0 <= i < |docs| :: docs[i].email != Some(""))
  }

  predicate DistinctClients(docs: seq<ClientDoc>) {
    forall i, j | 0 <= i < j < |docs| :: docs[i].key != docs[j].key
  }

  /** Identifiers for the rows that the import may create, which also salt hashes. */
  predicate Fresh<T>(rows: map<Id, T>, ids: seq<Id>, n: nat) {
    && |ids| == n && (forall i | 0 <= i < n :: ids[i] !in rows)
    && (forall i, j | 0 <= i < j < n :: ids[i] != ids[j])
  }

  // ---------------------------------------------------------------- specification

  function DocOf(docs: seq<UserDoc>, key: string): (i: Option<nat>)
    ensures i.Some? ==> i.value < |docs| && docs[i.value].key == key
    ensures i.None? ==> forall k | 0 <= k < |docs| :: docs[k].key != key
  {
    if docs == [] then None
    else if docs[0].key == key then Some(0)
    else
      var rest := DocOf(docs[1..], key);
      if rest.Some? then Some(rest.value + 1) else None
  }

  predicate Exists(users: Users, key: string) { exists x | x in users :: users[x].key == key }

  /** Only the named fields of an existing row change. */
  function Overlay(target: map<string, string>, source: map<string, string>,
                   present: set<string>): map<string, string>
  {
    map f | f in target :: if f in present && f in source then source[f] else target[f]
  }

  function Merged(row: UserRow, d: UserDoc, salt: Id, preserve: bool): UserRow {
    UserRow(row.key, Overlay(row.fields, d.fields, d.present),
            if "email" in d.present then d.email else row.email,
            if d.credential.Some? && !preserve then Some(Hash(d.credential.value, salt)) else row.password)
  }

  function Created(d: UserDoc, salt: Id): UserRow {
    UserRow(d.key, d.fields, d.email, if d.credential.Some? then Some(Hash(d.credential.value, salt)) else None)
  }

  /** A changing address is released before any address is assigned. */
  function Released(row: UserRow, d: UserDoc): UserRow {
    if "email" in d.present && row.email != d.email then row.(email := None) else row
  }

  /** The users after the release phase and the first `n` users of the document. */
  function StateAt(users: Users, docs: seq<UserDoc>, ids: seq<Id>, preserve: bool, n: nat): Users
    requires Fresh(users, ids, |docs|) && n <= |docs|
  {
    map x | x in users.Keys + (set i | 0 <= i < n && !Exists(users, docs[i].key) :: ids[i]) ::
      if x in users then
        var i := DocOf(docs, users[x].key);
        if i.None? then users[x]
        else if i.value < n then Merged(users[x], docs[i.value], ids[i.value], preserve)
        else Released(users[x], docs[i.value])
      else
        var i :| 0 <= i < n && ids[i] == x;
        Created(docs[i], x)
  }

  /** The result of an import on the users. */
  function Imported(users: Users, docs: seq<UserDoc>, ids: seq<Id>, preserve: bool): Users
    requires Fresh(users, ids, |docs|)
  {
    StateAt(users, docs, ids, preserve, |docs|)
  }

  lemma StateFacts(users: Users, docs: seq<UserDoc>, ids: seq<Id>, preserve: bool, n: nat)
    requires Fresh(users, ids, |docs|) && n <= |docs|
    ensures var after := StateAt(users, docs, ids, preserve, n);
            && (forall x :: x in after <==>
                  x in users || exists i :: 0 <= i < n && !Exists(users, docs[i].key) && ids[i] == x)
            && (forall i | 0 <= i < n && !Exists(users, docs[i].key) ::
                  ids[i] in after && after[ids[i]] == Created(docs[i], ids[i]))
            && (forall x | x in users :: x in after && after[x].key == users[x].key)
  {
    hide Merged, Released, Created, DocOf;
    var after := StateAt(users, docs, ids, preserve, n);
    forall x | x in users ensures x in after && after[x].key == users[x].key {
      KeysKept(users[x], docs, ids, preserve);
    }
  }

  lemma KeysKept(row: UserRow, docs: seq<UserDoc>, ids: seq<Id>, preserve: bool)
    ensures forall i | 0 <= i < |docs| && i < |ids| ::
      Merged(row, docs[i], ids[i], preserve).key == row.key && Released(row, docs[i]).key == row.key
  {}

  // ---------------------------------------------------------------- uniqueness at every flush

  /** No address that the document assigns belongs to another user that keeps it. */
  ghost predicate NoConflict(users: Users, docs: seq<UserDoc>) {
    forall i, x | 0 <= i < |docs| && x in users && Assigns(users, docs[i]) && Keeps(users[x], docs)
                  && users[x].key != docs[i].key :: users[x].email != docs[i].email
  }

  /** The document decides the address of this user, and gives one. */
  predicate Assigns(users: Users, d: UserDoc) {
    d.email.Some? && (!Exists(users, d.key) || "email" in d.present)
  }

  /** The document leaves the address of this row alone. */
  predicate Keeps(row: UserRow, docs: seq<UserDoc>) {
    var i := DocOf(docs, row.key);
    i.None? || "email" !in docs[i.value].present
  }

  /** Where a row of an intermediate state comes from. */
  lemma NameOrigin(users: Users, docs: seq<UserDoc>, ids: seq<Id>, preserve: bool, n: nat, x: Id)
    requires Fresh(users, ids, |docs|) && n <= |docs| && x in StateAt(users, docs, ids, preserve, n)
    ensures var row := StateAt(users, docs, ids, preserve, n)[x];
            if x in users then row.key == users[x].key
            else exists i :: 0 <= i < n && ids[i] == x && docs[i].key == row.key && !Exists(users, docs[i].key)
  {
    StateFacts(users, docs, ids, preserve, n);
    hide StateAt;
    if x !in users {
      var i :| 0 <= i < n && !Exists(users, docs[i].key) && ids[i] == x;
      assert docs[i].key == StateAt(users, docs, ids, preserve, n)[x].key;
    }
  }

  lemma NamesStayUnique(users: Users, docs: seq<UserDoc>, ids: seq<Id>, preserve: bool, n: nat)
    requires UniqueNames(users) && DistinctUsers(docs) && Fresh(users, ids, |docs|) && n <= |docs|
    ensures UniqueNames(StateAt(users, docs, ids, preserve, n))
  {
    hide StateAt;
    var after := StateAt(users, docs, ids, preserve, n);
    forall x, y | x in after && y in after && after[x].key == after[y].key ensures x == y {
      NameOrigin(users, docs, ids, preserve, n, x);
      NameOrigin(users, docs, ids, preserve, n, y);
    }
  }

  /** Where the address of a row of an intermediate state comes from: kept from
      before, or assigned by exactly one user of the document. */
  lemma EmailOrigin(users: Users, docs: seq<UserDoc>, ids: seq<Id>, preserve: bool, n: nat, x: Id)
    requires Fresh(users, ids, |docs|) && n <= |docs|
    requires x in StateAt(users, docs, ids, preserve, n) && StateAt(users, docs, ids, preserve, n)[x].email.Some?
    ensures var row := StateAt(users, docs, ids, preserve, n)[x];
            || (x in users && Keeps(users[x], docs) && row.email == users[x].email)
            || (exists i :: 0 <= i < |docs| && docs[i].key == row.key && Assigns(users, docs[i])
                            && docs[i].email == row.email && (x in users || ids[i] == x))
  {
    hide StateAt;
    if x in users {
      OldRowAt(users, docs, ids, preserve, n, x);
      var i := DocOf(docs, users[x].key);
      if i.Some? && "email" in docs[i.value].present {
        assert Assigns(users, docs[i.value]) && docs[i.value].key == users[x].key;
      }
    } else {
      StateFacts(users, docs, ids, preserve, n);
      var i :| 0 <= i < n && !Exists(users, docs[i].key) && ids[i] == x;
    }
  }

  /** What has become of a row that was there before. */
  lemma OldRowAt(users: Users, docs: seq<UserDoc>, ids: seq<Id>, preserve: bool, n: nat, x: Id)
    requires Fresh(users, ids, |docs|) && n <= |docs| && x in users
    ensures var i := DocOf(docs, users[x].key); var after := StateAt(users, docs, ids, preserve, n);
            x in after && after[x] ==
              if i.None? then users[x]
              else if i.value < n then Merged(users[x], docs[i.value], ids[i.value], preserve)
              else Released(users[x], docs[i.value])
  {
    hide Merged, Released, Created, DocOf, Exists;
  }

  /** After the release phase and after every user, no name and no address belongs to
      two rows: any permutation, transfer or creation that the preflight accepts. */
  lemma EmailsStayUnique(users: Users, docs: seq<UserDoc>, ids: seq<Id>, preserve: bool, n: nat)
    requires UniqueNames(users) && UniqueEmails(users) && DistinctUsers(docs) && Fresh(users, ids, |docs|)
    requires NoConflict(users, docs) && n <= |docs|
    ensures UniqueEmails(StateAt(users, docs, ids, preserve, n))
  {
    hide StateAt, Keeps, Exists, DocOf;
    var after := StateAt(users, docs, ids, preserve, n);
    NamesStayUnique(users, docs, ids, preserve, n);
    StateFacts(users, docs, ids, preserve, n);
    forall x, y | x in after && y in after && after[x].email.Some? && after[x].email == after[y].email ensures x == y {
      EmailOrigin(users, docs, ids, preserve, n, x);
      EmailOrigin(users, docs, ids, preserve, n, y);
      if !(x in users && Keeps(users[x], docs)) && !(y in users && Keeps(users[y], docs)) {
        var i :| 0 <= i < |docs| && docs[i].key == after[x].key && docs[i].email == after[x].email;
        var j :| 0 <= j < |docs| && docs[j].key == after[y].key && docs[j].email == after[y].email;
        assert i == j;
      }
    }
  }

  /** The final owner of an assigned address is the user that the document names. */
  lemma AssignedFinally(users: Users, docs: seq<UserDoc>, ids: seq<Id>, preserve: bool, i: nat) returns (x: Id)
    requires DistinctUsers(docs) && Fresh(users, ids, |docs|) && i < |docs| && Assigns(users, docs[i])
    ensures x in Imported(users, docs, ids, preserve)
    ensures Imported(users, docs, ids, preserve)[x].email == docs[i].email
    ensures Imported(users, docs, ids, preserve)[x].key == docs[i].key
  {
    hide StateAt;
    if Exists(users, docs[i].key) {
      x :| x in users && users[x].key == docs[i].key;
      OldRowAt(users, docs, ids, preserve, |docs|, x);
      assert DocOf(docs, users[x].key) == Some(i);
    } else {
      x := ids[i];
      StateFacts(users, docs, ids, preserve, |docs|);
    }
  }

  /** The preflight condition is exact: it holds if and only if no address has two
      owners once the whole document is applied. */
  lemma NoConflictIff(users: Users, docs: seq<UserDoc>, ids: seq<Id>, preserve: bool)
    requires UniqueNames(users) && UniqueEmails(users) && DistinctUsers(docs) && Fresh(users, ids, |docs|)
    ensures NoConflict(users, docs) <==> UniqueEmails(Imported(users, docs, ids, preserve))
  {
    hide StateAt, Keeps, Assigns, DocOf, Exists;
    if NoConflict(users, docs) {
      EmailsStayUnique(users, docs, ids, preserve, |docs|);
    } else {
      var i, x :| 0 <= i < |docs| && x in users && Assigns(users, docs[i]) && Keeps(users[x], docs)
                  && users[x].key != docs[i].key && users[x].email == docs[i].email;
      var y := AssignedFinally(users, docs, ids, preserve, i);
      KeptFinally(users, docs, ids, preserve, x);
      assert docs[i].email.Some? by { assert Assigns(users, docs[i]); AssignsSome(users, docs[i]); }
    }
  }

  lemma AssignsSome(users: Users, d: UserDoc)
    requires Assigns(users, d)
    ensures d.email.Some?
  {}

  lemma KeptFinally(users: Users, docs: seq<UserDoc>, ids: seq<Id>, preserve: bool, x: Id)
    requires Fresh(users, ids, |docs|) && x in users && Keeps(users[x], docs)
    ensures var after := Imported(users, docs, ids, preserve);
            x in after && after[x].email == users[x].email && after[x].key == users[x].key
  {
    hide StateAt;
    OldRowAt(users, docs, ids, preserve, |docs|, x);
  }

  /** What becomes of a user that was there before: the document's address and fields
      where it names them, the old ones otherwise; a new password only if one is given
      and credentials are not preserved; an unlisted user is unchanged. */
  lemma FinalOwnership(users: Users, docs: seq<UserDoc>, ids: seq<Id>, preserve: bool, x: Id)
    requires DistinctUsers(docs) && Fresh(users, ids, |docs|) && x in users
    ensures x in Imported(users, docs, ids, preserve)
    ensures var row := Imported(users, docs, ids, preserve)[x];
            && row.key == users[x].key
            && ((forall i | 0 <= i < |docs| :: docs[i].key != users[x].key) ==> row == users[x])
            && (forall i | 0 <= i < |docs| && docs[i].key == users[x].key ::
                  && row.email == (if "email" in docs[i].present then docs[i].email else users[x].email)
                  && row.fields.Keys == users[x].fields.Keys
                  && (forall f | f in users[x].fields && (f !in docs[i].present || f !in docs[i].fields) ::
                        row.fields[f] == users[x].fields[f])
                  && (forall f | f in users[x].fields && f in docs[i].present && f in docs[i].fields ::
                        row.fields[f] == docs[i].fields[f])
                  && (if preserve || docs[i].credential.None? then row.password == users[x].password
                      else row.password == Some(Hash(docs[i].credential.value, ids[i]))))
  {
    hide Imported, DistinctUsers;
    var i := DocOf(docs, users[x].key);
    if i.None? {
      UnlistedFinally(users, docs, ids, preserve, x);
    } else {
      ListedFinally(users, docs, ids, preserve, x, i.value);
      OnlyDoc(docs, i.value);
    }
  }

  lemma OnlyDoc(docs: seq<UserDoc>, i: nat)
    requires DistinctUsers(docs) && i < |docs|
    ensures forall k | 0 <= k < |docs| && docs[k].key == docs[i].key :: k == i
  {}

  lemma UnlistedFinally(users: Users, docs: seq<UserDoc>, ids: seq<Id>, preserve: bool, x: Id)
    requires Fresh(users, ids, |docs|) && x in users && DocOf(docs, users[x].key).None?
    ensures x in Imported(users, docs, ids, preserve) && Imported(users, docs, ids, preserve)[x] == users[x]
  {
    hide StateAt;
    OldRowAt(users, docs, ids, preserve, |docs|, x);
  }

  lemma ListedFinally(users: Users, docs: seq<UserDoc>, ids: seq<Id>, preserve: bool, x: Id, i: nat)
    requires DistinctUsers(docs) && Fresh(users, ids, |docs|) && x in users && i < |docs| && docs[i].key == users[x].key
    ensures x in Imported(users, docs, ids, preserve)
    ensures Imported(users, docs, ids, preserve)[x] == Merged(users[x], docs[i], ids[i], preserve)
  {
    hide StateAt, Merged;
    OldRowAt(users, docs, ids, preserve, |docs|, x);
    assert DocOf(docs, users[x].key) == Some(i);
  }

  /** A user that the document creates gets all the document says, a password included
      even where the passwords of existing users are preserved. */
  lemma CreatedFinally(users: Users, docs: seq<UserDoc>, ids: seq<Id>, preserve: bool)
    requires Fresh(users, ids, |docs|)
    ensures forall i | 0 <= i < |docs| && !Exists(users, docs[i].key) ::
      ids[i] in Imported(users, docs, ids, preserve)
      && Imported(users, docs, ids, preserve)[ids[i]].key == docs[i].key
      && Imported(users, docs, ids, preserve)[ids[i]].email == docs[i].email
      && Imported(users, docs, ids, preserve)[ids[i]].fields == docs[i].fields
      && Imported(users, docs, ids, preserve)[ids[i]].password
         == (match docs[i].credential case Some(secret) => Some(Hash(secret, ids[i])) case None => None)
  {
    hide StateAt, Exists;
    StateFacts(users, docs, ids, preserve, |docs|);
  }

  // ---------------------------------------------------------------- importing twice

  /** Equal apart from the salt of the stored hash. */
  predicate SameButSalt(a: UserRow, b: UserRow) {
    && b == a.(password := b.password)
    && (a.password.Some? <==> b.password.Some?)
    && (a.password.Some? ==> a.password.value.secret == b.password.value.secret)
  }

  lemma MergingTwice(row: UserRow, d: UserDoc, first: Id, second: Id, preserve: bool)
    ensures SameButSalt(Merged(row, d, first, preserve), Merged(Merged(row, d, first, preserve), d, second, preserve))
    ensures SameButSalt(Created(d, first), Merged(Created(d, first), d, second, preserve))
  {
    var once := Overlay(row.fields, d.fields, d.present);
    assert Overlay(once, d.fields, d.present) == once;
    assert Overlay(d.fields, d.fields, d.present) == d.fields;
  }

  /** Importing the same document again changes nothing but salts: the same rows,
      and every field of every row. */
  lemma ImportIsIdempotent(users: Users, docs: seq<UserDoc>, first: seq<Id>, second: seq<Id>, preserve: bool)
    requires UniqueNames(users) && DistinctUsers(docs) && Fresh(users, first, |docs|)
    requires Fresh(Imported(users, docs, first, preserve), second, |docs|)
    ensures var once := Imported(users, docs, first, preserve);
            var twice := Imported(once, docs, second, preserve);
            && (forall x :: x in twice <==> x in once)
            && (forall x | x in once :: SameButSalt(once[x], twice[x]))
  {
    hide StateAt, SameButSalt, Merged, Created, Released;
    var once := Imported(users, docs, first, preserve);
    var twice := Imported(once, docs, second, preserve);
    forall i | 0 <= i < |docs| ensures Exists(once, docs[i].key) {
      ListedExists(users, docs, first, preserve, i);
    }
    StateFacts(once, docs, second, preserve, |docs|);
    forall x | x in once ensures SameButSalt(once[x], twice[x]) {
      RowImportedTwice(users, docs, first, second, preserve, x);
    }
  }

  lemma ListedExists(users: Users, docs: seq<UserDoc>, ids: seq<Id>, preserve: bool, i: nat)
    requires Fresh(users, ids, |docs|) && i < |docs|
    ensures Exists(Imported(users, docs, ids, preserve), docs[i].key)
  {
    hide StateAt;
    StateFacts(users, docs, ids, preserve, |docs|);
    var once := Imported(users, docs, ids, preserve);
    if Exists(users, docs[i].key) {
      var x :| x in users && users[x].key == docs[i].key;
      assert x in once && once[x].key == docs[i].key;
    } else {
      assert ids[i] in once && once[ids[i]].key == docs[i].key;
    }
  }

  lemma RowImportedTwice(users: Users, docs: seq<UserDoc>, first: seq<Id>, second: seq<Id>, preserve: bool, x: Id)
    requires DistinctUsers(docs) && Fresh(users, first, |docs|)
    requires Fresh(Imported(users, docs, first, preserve), second, |docs|)
    requires x in Imported(users, docs, first, preserve)
    ensures var once := Imported(users, docs, first, preserve);
            x in Imported(once, docs, second, preserve)
            && SameButSalt(once[x], Imported(once, docs, second, preserve)[x])
  {
    hide StateAt, Merged, Created, Released, Exists;
    var once := Imported(users, docs, first, preserve);
    OldRowAt(once, docs, second, preserve, |docs|, x);
    var j := DocOf(docs, once[x].key);
    if x in users {
      OldRowAt(users, docs, first, preserve, |docs|, x);
      StateFacts(users, docs, first, preserve, |docs|);
      if j.Some? { MergingTwice(users[x], docs[j.value], first[j.value], second[j.value], preserve); }
    } else {
      NameOrigin(users, docs, first, preserve, |docs|, x);
      var i :| 0 <= i < |docs| && first[i] == x && docs[i].key == once[x].key && !Exists(users, docs[i].key);
      StateFacts(users, docs, first, preserve, |docs|);
      assert j == Some(i);
      MergingTwice(once[x], docs[i], first[i], second[i], preserve);
    }
  }
}

/** A client's own representation, and what putting it back does. */
module ClientDocument {
  import opened Prelude
  import Protocol

  // ---------------------------------------------------------------- the `##` list codec

  /** `'##'.join(uris)`. */
  function Joined(uris: seq<string>): string {
    if uris == [] then ""
    else if |uris| == 1 then uris[0]
    else uris[0] + "##" + Joined(uris[1..])
  }

  /** The leftmost `##`. */
  function Separator(s: string): (i: Option<nat>)
    ensures i.Some? ==> i.value + 1 < |s| && s[i.value] == '#' && s[i.value + 1] == '#'
    ensures i.Some? ==> forall k | 0 <= k < i.value :: !(s[k] == '#' && s[k + 1] == '#')
    ensures i.None? ==> forall k | 0 <= k < |s| - 1 :: !(s[k] == '#' && s[k + 1] == '#')
  {
    if |s| < 2 then None
    else if s[0] == '#' && s[1] == '#' then Some(0)
    else
      var rest := Separator(s[1..]);
      if rest.Some? then Some(rest.value + 1) else None
  }

  /** `s.split('##')`. */
  function Split(s: string): (pieces: seq<string>)
    ensures pieces != []
    decreases |s|
  {
    var i := Separator(s);
    if i.None? then [s] else [s[..i.value]] + Split(s[i.value + 2..])
  }

  /** An empty attribute stands for no URI at all. */
  function Parsed(raw: string): seq<string> { if raw == "" then [] else Split(raw) }

  predicate NoSeparator(s: string) { forall k | 0 <= k < |s| - 1 :: !(s[k] == '#' && s[k + 1] == '#') }

  predicate EndsOpen(s: string) { s != "" && s[|s| - 1] == '#' }

  /** No piece contains the separator, and only the last may end with half of it. */
  predicate Separable(uris: seq<string>) {
    && (forall i | 0 <= i < |uris| :: NoSeparator(uris[i]))
    && (forall i | 0 <= i < |uris| - 1 :: !EndsOpen(uris[i]))
  }

  lemma {:induction false} SplitSeparable(s: string)
    ensures Separable(Split(s))
    decreases |s|
  {
    var i := Separator(s);
    if i.Some? {
      var first, rest := s[..i.value], Split(s[i.value + 2..]);
      SplitSeparable(s[i.value + 2..]);
      assert NoSeparator(first);
      assert !EndsOpen(first);
      forall k | 0 <= k < |Split(s)| ensures NoSeparator(Split(s)[k]) {
        if k > 0 { assert Split(s)[k] == rest[k - 1]; }
      }
      forall k | 0 <= k < |Split(s)| - 1 ensures !EndsOpen(Split(s)[k]) {
        if k > 0 { assert Split(s)[k] == rest[k - 1]; }
      }
    }
  }

  lemma FirstSeparator(first: string, rest: string)
    requires NoSeparator(first) && !EndsOpen(first)
    ensures Separator(first + "##" + rest) == Some(|first|)
  {
    var s := first + "##" + rest;
    assert s[|first|] == '#' && s[|first| + 1] == '#';
    forall k | 0 <= k < |first| ensures !(s[k] == '#' && s[k + 1] == '#') {
      assert s[k] == first[k];
      if k + 1 < |first| { assert s[k + 1] == first[k + 1]; }
    }
  }

  lemma {:induction false} SplitJoined(uris: seq<string>)
    requires uris != [] && Separable(uris)
    ensures Split(Joined(uris)) == uris
    decreases |uris|
  {
    if |uris| == 1 {
      assert Separator(uris[0]).None?;
    } else {
      var rest := Joined(uris[1..]);
      FirstSeparator(uris[0], rest);
      var s := uris[0] + "##" + rest;
      assert s[..|uris[0]|] == uris[0] && s[|uris[0]| + 2..] == rest;
      assert Separable(uris[1..]);
      SplitJoined(uris[1..]);
    }
  }

  /** Joining and splitting are inverse exactly on these lists. */
  lemma CodecIff(uris: seq<string>)
    ensures Parsed(Joined(uris)) == uris <==> Separable(uris) && uris != [""]
  {
    if Separable(uris) && uris != [""] {
      if uris != [] {
        SplitJoined(uris);
      }
    } else if Parsed(Joined(uris)) == uris {
      SplitSeparable(Joined(uris));
    }
  }

  /** In particular on lists of non-empty URIs without a fragment. */
  lemma CodecOnUris(uris: seq<string>)
    requires forall i | 0 <= i < |uris| :: uris[i] != "" && '#' !in uris[i]
    ensures Parsed(Joined(uris)) == uris
  {
    forall i | 0 <= i < |uris| ensures NoSeparator(uris[i]) && !EndsOpen(uris[i]) {
      forall k | 0 <= k < |uris[i]| ensures uris[i][k] != '#' { assert uris[i][k] in uris[i]; }
    }
    CodecIff(uris);
  }

  // ---------------------------------------------------------------- representation and update

  datatype Client = Client(
    id: Id, clientId: string, name: Option<string>, enabled: bool, isPublic: bool, secretHash: Option<Id>,
    redirectUris: seq<string>, webOrigins: seq<string>, standardFlow: bool, directGrants: bool,
    defaultScopes: seq<string>, optionalScopes: seq<string>, pkcePolicy: string, logoutUris: seq<string>)

  /** A request body: the fields it names. The last two are attributes, and a secret
      stands for the hash that is stored of it. */
  datatype Body = Body(
    id: Option<Id>, clientId: Option<string>, name: Option<Option<string>>, enabled: Option<bool>,
    isPublic: Option<bool>, secret: Option<Id>, redirectUris: Option<seq<string>>, webOrigins: Option<seq<string>>,
    standardFlow: Option<bool>, directGrants: Option<bool>, defaultScopes: Option<seq<string>>,
    optionalScopes: Option<seq<string>>, pkcePolicy: Option<string>, logoutUris: Option<string>)

  /** `_client_representation`: everything but the secret. */
  function Representation(c: Client): Body {
    Body(Some(c.id), Some(c.clientId), Some(c.name), Some(c.enabled), Some(c.isPublic), None,
         Some(c.redirectUris), Some(c.webOrigins), Some(c.standardFlow), Some(c.directGrants),
         Some(c.defaultScopes), Some(c.optionalScopes), Some(c.pkcePolicy), Some(Joined(c.logoutUris)))
  }

  /** The validation of single strings, which is not modelled further. */
  datatype Rules = Rules(nameOk: string -> bool, uriOk: string -> bool, originOk: string -> bool)

  /** A valid URI is not empty and has no fragment. */
  ghost predicate Sensible(rules: Rules) {
    forall u: string :: rules.uriOk(u) ==> u != "" && '#' !in u
  }

  const MAX_LIST := 256
  const MAX_ATTRIBUTE := 4096
  const SUPPORTED_SCOPES := {"openid", "profile", "email"}

  predicate UrisOk(rules: Rules, uris: seq<string>) {
    |uris| <= MAX_LIST && forall i | 0 <= i < |uris| :: rules.uriOk(uris[i])
  }

  predicate OriginsOk(rules: Rules, origins: seq<string>) {
    |origins| <= MAX_LIST && forall i | 0 <= i < |origins| :: rules.originOk(origins[i])
  }

  predicate ScopesOk(scopes: seq<string>) {
    |scopes| <= MAX_LIST && forall i | 0 <= i < |scopes| :: scopes[i] in SUPPORTED_SCOPES
  }

  /** The checks of `client_resource`, of the document parser on an update, and of the
      import preflight on the client it will update. */
  predicate Accepted(rules: Rules, c: Client, body: Body) {
    && (body.id.Some? ==> body.id.value == c.id) && (body.clientId.Some? ==> body.clientId.value == c.clientId)
    && (body.name.Some? && body.name.value.Some? ==> rules.nameOk(body.name.value.value))
    && (body.redirectUris.Some? ==> UrisOk(rules, body.redirectUris.value))
    && (body.webOrigins.Some? ==> OriginsOk(rules, body.webOrigins.value))
    && (body.defaultScopes.Some? ==> ScopesOk(body.defaultScopes.value))
    && (body.optionalScopes.Some? ==> ScopesOk(body.optionalScopes.value))
    && (body.pkcePolicy.Some? ==> body.pkcePolicy.value in {"S256", "optional"})
    && (body.logoutUris.Some? ==>
          |body.logoutUris.value| <= MAX_ATTRIBUTE && UrisOk(rules, Parsed(body.logoutUris.value)))
    && var isPublic := if body.isPublic.Some? then body.isPublic.value else c.isPublic;
       if isPublic then body.secret.None? else body.secret.Some? || c.secretHash.Some?
  }

  function Or<T>(field: Option<T>, old_: T): T { if field.Some? then field.value else old_ }

  /** `PUT`: the fields that the body names, scopes without repetitions, and no secret
      on a public client. */
  function Put(rules: Rules, c: Client, body: Body): Option<Client> {
    if !Accepted(rules, c, body) then None
    else
      var isPublic := Or(body.isPublic, c.isPublic);
      Some(Client(c.id, c.clientId, Or(body.name, c.name), Or(body.enabled, c.enabled), isPublic,
        if isPublic then None else if body.secret.Some? then body.secret else c.secretHash,
        Or(body.redirectUris, c.redirectUris), Or(body.webOrigins, c.webOrigins),
        Or(body.standardFlow, c.standardFlow), Or(body.directGrants, c.directGrants),
        if body.defaultScopes.Some? then Protocol.Distinct(body.defaultScopes.value) else c.defaultScopes,
        if body.optionalScopes.Some? then Protocol.Distinct(body.optionalScopes.value) else c.optionalScopes,
        Or(body.pkcePolicy, c.pkcePolicy),
        if body.logoutUris.Some? then Parsed(body.logoutUris.value) else c.logoutUris))
  }

  /** Every field of the row is one that validation would accept by itself. */
  predicate FieldsValid(rules: Rules, c: Client) {
    && (c.name.Some? ==> rules.nameOk(c.name.value)) && UrisOk(rules, c.redirectUris)
    && OriginsOk(rules, c.webOrigins) && ScopesOk(c.defaultScopes) && ScopesOk(c.optionalScopes)
    && c.pkcePolicy in {"S256", "optional"} && UrisOk(rules, c.logoutUris)
  }

  /** Getting a client and putting the result back is the identity if and only if the
      joined logout URIs fit the attribute limit, no scope is listed twice, and the
      client has a secret exactly if it is confidential. */
  lemma GetThenPutIff(rules: Rules, c: Client)
    requires Sensible(rules) && FieldsValid(rules, c)
    ensures Put(rules, c, Representation(c)) == Some(c) <==>
      && |Joined(c.logoutUris)| <= MAX_ATTRIBUTE && (c.isPublic <==> c.secretHash.None?)
      && Protocol.Distinct(c.defaultScopes) == c.defaultScopes
      && Protocol.Distinct(c.optionalScopes) == c.optionalScopes
  {
    CodecOnUris(c.logoutUris);
    hide Joined, Parsed;
  }

  /** What is read from a client says everything but its secret: put on whatever other
      state the client is in, it brings back every column, and the secret that state has,
      unless the client is public. */
  lemma RepresentationSaysAll(rules: Rules, c: Client, other: Client)
    requires Sensible(rules) && FieldsValid(rules, c) && |Joined(c.logoutUris)| <= MAX_ATTRIBUTE
    requires Protocol.Distinct(c.defaultScopes) == c.defaultScopes
    requires Protocol.Distinct(c.optionalScopes) == c.optionalScopes
    requires other.id == c.id && other.clientId == c.clientId && (c.isPublic || other.secretHash.Some?)
    ensures Put(rules, other, Representation(c))
            == Some(c.(secretHash := if c.isPublic then None else other.secretHash))
  {
    CodecOnUris(c.logoutUris);
    hide Joined, Parsed;
  }

  /** It is never put on another client, and never shows a secret. */
  lemma RepresentationIsItsOwn(rules: Rules, c: Client, other: Client)
    requires other.id != c.id || other.clientId != c.clientId
    ensures Put(rules, other, Representation(c)).None? && Representation(c).secret.None?
  {
    hide Joined, Parsed;
  }

  /** A list is its own distinct form exactly if nothing in it repeats. */
  lemma {:induction false} DistinctIff(words: seq<string>)
    ensures Protocol.Distinct(words) == words <==> forall i, j | 0 <= i < j < |words| :: words[i] != words[j]
    ensures forall i, j | 0 <= i < j < |Protocol.Distinct(words)| ::
      Protocol.Distinct(words)[i] != Protocol.Distinct(words)[j]
    ensures |Protocol.Distinct(words)| <= |words|
  {
    if words != [] {
      var init, last := words[..|words| - 1], words[|words| - 1];
      DistinctIff(init);
      var rest := Protocol.Distinct(init);
      if forall i, j | 0 <= i < j < |words| :: words[i] != words[j] {
        assert rest == init && last !in init;
        assert words == init + [last];
      }
    }
  }

  /** What is said first stays first: the distinct form of a beginning is a beginning of
      the distinct form. */
  lemma {:induction false} DistinctKeepsOrder(first: seq<string>, more: seq<string>)
    ensures Protocol.Distinct(first) <= Protocol.Distinct(first + more)
    decreases |more|
  {
    if more == [] {
      assert first + more == first;
    } else {
      var words := first + more;
      assert words[..|words| - 1] == first + more[..|more| - 1];
      DistinctKeepsOrder(first, more[..|more| - 1]);
    }
  }

  /** Any accepted update, put again, changes nothing: in particular every client
      that was updated once satisfies the condition on scopes. */
  lemma PutIdempotent(rules: Rules, c: Client, body: Body)
    requires Put(rules, c, body).Some?
    ensures Put(rules, Put(rules, c, body).value, body) == Put(rules, c, body)
  {
    hide Joined, Parsed;
  }

  /** A body that names only some fields leaves the others as they are. */
  lemma PutLeavesTheRest(rules: Rules, c: Client, body: Body)
    requires Put(rules, c, body).Some?
    ensures var after := Put(rules, c, body).value;
            && after.id == c.id && after.clientId == c.clientId
            && (body.name.None? ==> after.name == c.name) && (body.enabled.None? ==> after.enabled == c.enabled)
            && (body.isPublic.None? ==> after.isPublic == c.isPublic)
            && (body.redirectUris.None? ==> after.redirectUris == c.redirectUris)
            && (body.webOrigins.None? ==> after.webOrigins == c.webOrigins)
            && (body.standardFlow.None? ==> after.standardFlow == c.standardFlow)
            && (body.directGrants.None? ==> after.directGrants == c.directGrants)
            && (body.defaultScopes.None? ==> after.defaultScopes == c.defaultScopes)
            && (body.optionalScopes.None? ==> after.optionalScopes == c.optionalScopes)
            && (body.pkcePolicy.None? ==> after.pkcePolicy == c.pkcePolicy)
            && (body.logoutUris.None? ==> after.logoutUris == c.logoutUris)
            && (body.isPublic.None? && body.secret.None? && (c.isPublic ==> c.secretHash.None?) ==>
                  after.secretHash == c.secretHash)
            && (after.isPublic <==> after.secretHash.None?)
  {}

  /** Every field that an accepted body names takes the body's value: scopes without
      repetition but with the same words, the logout URIs as the pieces of the
      attribute, a secret as it is stored. */
  lemma PutTakesTheNamed(rules: Rules, c: Client, body: Body)
    requires Put(rules, c, body).Some?
    ensures var after := Put(rules, c, body).value;
            && Takes(body.id, after.id) && Takes(body.clientId, after.clientId) && Takes(body.name, after.name)
            && Takes(body.enabled, after.enabled) && Takes(body.isPublic, after.isPublic)
            && Takes(body.redirectUris, after.redirectUris) && Takes(body.webOrigins, after.webOrigins)
            && Takes(body.standardFlow, after.standardFlow) && Takes(body.directGrants, after.directGrants)
            && Takes(body.pkcePolicy, after.pkcePolicy)
            && (body.defaultScopes.Some? ==> SameWords(body.defaultScopes.value, after.defaultScopes))
            && (body.optionalScopes.Some? ==> SameWords(body.optionalScopes.value, after.optionalScopes))
            && (body.logoutUris.Some? ==> after.logoutUris == Parsed(body.logoutUris.value))
            && (body.secret.Some? ==> after.secretHash == body.secret)
            && (body.secret.None? && !after.isPublic ==> after.secretHash == c.secretHash)
            && (after.isPublic ==> after.secretHash == None)
  {
    hide Parsed;
    if body.defaultScopes.Some? { DistinctIff(body.defaultScopes.value); }
    if body.optionalScopes.Some? { DistinctIff(body.optionalScopes.value); }
  }

  /** A field that is named has the value named. */
  predicate Takes<T(==)>(field: Option<T>, value: T) { field.Some? ==> value == field.value }

  /** The same words, none of them twice. */
  ghost predicate SameWords(given: seq<string>, kept: seq<string>) {
    && (forall w :: w in kept <==> w in given)
    && forall i, j | 0 <= i < j < |kept| :: kept[i] != kept[j]
  }

  /** A body is refused if it names something that validation rejects, another
      identifier, a secret for a public client, or leaves a confidential one without. */
  lemma PutRefuses(rules: Rules, c: Client, body: Body)
    ensures
      Put(rules, c, body).None? <==>
        || (body.id.Some? && body.id.value != c.id) || (body.clientId.Some? && body.clientId.value != c.clientId)
        || (body.name.Some? && body.name.value.Some? && !rules.nameOk(body.name.value.value))
        || (body.redirectUris.Some? && !AllOf(rules.uriOk, body.redirectUris.value))
        || (body.webOrigins.Some? && !AllOf(rules.originOk, body.webOrigins.value))
        || (body.defaultScopes.Some? && !AllOf(Supported, body.defaultScopes.value))
        || (body.optionalScopes.Some? && !AllOf(Supported, body.optionalScopes.value))
        || (body.pkcePolicy.Some? && body.pkcePolicy.value != "S256" && body.pkcePolicy.value != "optional")
        || (body.logoutUris.Some?
            && (|body.logoutUris.value| > 4096 || !AllOf(rules.uriOk, Parsed(body.logoutUris.value))))
        || (if body.isPublic == Some(true) || (body.isPublic == None && c.isPublic) then body.secret.Some?
            else body.secret.None? && c.secretHash.None?)
  {
    hide Parsed;
  }

  function Supported(scope: string): bool { scope == "openid" || scope == "profile" || scope == "email" }

  /** At most 256 values, each of them in order. */
  predicate AllOf(ok: string -> bool, values: seq<string>) {
    |values| < 257 && forall i | 0 <= i < |values| :: ok(values[i])
  }
}

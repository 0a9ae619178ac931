/** Single-use reset messages: what `issue` signs and what `consume` accepts. */
module ActionTokens {
  import opened Prelude

  datatype Claims = Claims(jti: Id, sub: Id, realm: Id, client: Id, asid: Id, iat: nat, exp: nat)

  /** The stored message; `hash` stands for the token it was computed from. */
  datatype Message = Message(
    realm: Id, client: Id, user: Id, asid: Id, hash: Claims, createdAt: Time, expiresAt: Time, consumedAt: Option<Time>)

  /** What the relationship checks read of the authentication session, and whether its
      realm, client, flow and user are enabled and belong together. */
  datatype AuthView = AuthView(realm: Id, client: Id, selected: Option<Id>, expiresAt: Time, inOrder: bool)

  datatype Store = Store(messages: map<Id, Message>, auths: map<Id, AuthView>, supply: Id)

  const LIFETIME: nat := 1800

  function WholeSeconds(t: Time): Time { Floor(t) * SECOND }

  /** `_validate_relationships`. */
  predicate Related(st: Store, asid: Id, realm: Id, user: Id, now: Time) {
    && asid in st.auths
    && var auth := st.auths[asid];
    auth.realm == realm && auth.selected == Some(user) && now < auth.expiresAt && auth.inOrder
  }

  // ---------------------------------------------------------------- operations

  /** `issue`: a token for the selected user that expires with the session at latest. */
  function Issue(st: Store, asid: Id, user: Id, now: Time): Option<(Store, Claims)> {
    if asid !in st.auths then None
    else
      var auth := st.auths[asid];
      var start := WholeSeconds(now);
      var expires := WholeSeconds(Min(start + LIFETIME * SECOND, auth.expiresAt));
      if !Related(st, asid, auth.realm, user, start) || expires <= start then None
      else
        var claims := Claims(st.supply, user, auth.realm, auth.client, asid, Floor(start), Floor(expires));
        var message := Message(auth.realm, auth.client, user, asid, claims, start, expires, None);
        Some((Store(st.messages[st.supply := message], st.auths, st.supply + 1), claims))
  }

  /** The checks of `consume` on a token whose signature is good. */
  predicate Consumable(st: Store, realm: Id, raw: Claims, now: Time) {
    && raw.iat < raw.exp && now < raw.exp * SECOND && raw.iat * SECOND <= now
    && raw.jti in st.messages && realm == raw.realm
    && var m := st.messages[raw.jti];
    && m.realm == raw.realm && m.user == raw.sub && m.client == raw.client && m.asid == raw.asid
    && m.consumedAt.None? && now < m.expiresAt
    && Floor(m.createdAt) == raw.iat && Floor(m.expiresAt) == raw.exp && m.hash == raw
    && Related(st, raw.asid, raw.realm, raw.sub, now) && st.auths[raw.asid].client == raw.client
  }

  /** `consume_reset_email`: the conditional update. */
  method ConsumeMessage(st: Store, jti: Id, now: Time) returns (consumed: bool, after: Store)
    requires jti in st.messages
    ensures consumed <==> st.messages[jti].consumedAt.None? && now < st.messages[jti].expiresAt
    ensures !consumed ==> after == st
    ensures consumed ==> after == st.(messages := st.messages[jti := st.messages[jti].(consumedAt := Some(now))])
  {
    var m := st.messages[jti];
    if m.consumedAt.Some? || m.expiresAt <= now {
      return false, st;
    }
    return true, st.(messages := st.messages[jti := m.(consumedAt := Some(now))]);
  }

  function Consume(st: Store, realm: Id, raw: Claims, now: Time): Option<Store> {
    if !Consumable(st, realm, raw, now) then None
    else Some(st.(messages := st.messages[raw.jti := st.messages[raw.jti].(consumedAt := Some(now))]))
  }

  /** `consume`: the checks, then the conditional update. */
  method ConsumeToken(st: Store, realm: Id, raw: Claims, now: Time) returns (after: Option<Store>)
    ensures after == Consume(st, realm, raw, now)
  {
    if !Consumable(st, realm, raw, now) {
      return None;
    }
    var consumed, next := ConsumeMessage(st, raw.jti, now);
    return if consumed then Some(next) else None;
  }

  // ---------------------------------------------------------------- properties

  /** Every stored message is the record of the token that was mailed. */
  predicate RecordOk(jti: Id, m: Message) {
    && m.hash == Claims(jti, m.user, m.realm, m.client, m.asid, Floor(m.createdAt), Floor(m.expiresAt))
    && m.createdAt == WholeSeconds(m.createdAt) && m.expiresAt == WholeSeconds(m.expiresAt)
    && m.createdAt < m.expiresAt <= m.createdAt + LIFETIME * SECOND
  }

  ghost predicate Ok(st: Store) {
    forall jti | jti in st.messages :: RecordOk(jti, st.messages[jti]) && jti < st.supply
  }

  lemma WholeIsWhole(t: Time)
    ensures WholeSeconds(WholeSeconds(t)) == WholeSeconds(t) <= t && Floor(WholeSeconds(t)) == Floor(t)
  {}

  lemma IssueKeepsOk(st: Store, asid: Id, user: Id, now: Time)
    requires Ok(st) && Issue(st, asid, user, now).Some?
    ensures Ok(Issue(st, asid, user, now).value.0)
  {
    var auth, start := st.auths[asid], WholeSeconds(now);
    WholeIsWhole(now);
    WholeIsWhole(Min(start + LIFETIME * SECOND, auth.expiresAt));
    hide Floor, Related;
  }

  lemma ConsumeKeepsOk(st: Store, realm: Id, raw: Claims, now: Time)
    requires Ok(st) && Consume(st, realm, raw, now).Some?
    ensures Ok(Consume(st, realm, raw, now).value)
  {
    hide Floor, Related;
  }

  /** A message never outlives the session it was sent for, nor half an hour. */
  lemma MessageBounded(st: Store, asid: Id, user: Id, now: Time)
    requires Issue(st, asid, user, now).Some?
    ensures var claims := Issue(st, asid, user, now).value.1;
            && claims.exp * SECOND <= st.auths[asid].expiresAt
            && claims.exp <= claims.iat + LIFETIME && claims.iat < claims.exp
  {
    var start := WholeSeconds(now);
    WholeIsWhole(now);
    WholeIsWhole(Min(start + LIFETIME * SECOND, st.auths[asid].expiresAt));
    hide Related;
  }

  /** A mailed token is accepted exactly while it is unexpired and unconsumed and its
      session still selects the same user in the same realm and client. */
  lemma MailedTokenAcceptedIff(st: Store, jti: Id, now: Time)
    requires Ok(st) && jti in st.messages && st.messages[jti].createdAt <= now
    ensures var m := st.messages[jti];
            Consume(st, m.realm, m.hash, now).Some? <==>
              && m.consumedAt.None? && now < m.expiresAt
              && Related(st, m.asid, m.realm, m.user, now) && st.auths[m.asid].client == m.client
  {
    var m := st.messages[jti];
    assert RecordOk(jti, m);
    FloorBefore(now, Floor(m.expiresAt));
    assert Floor(m.createdAt) < Floor(m.expiresAt) by { FloorBefore(m.createdAt, Floor(m.expiresAt)); }
    hide Related;
  }

  /** The authentication session still stands for that user and realm. */
  predicate Stands(st: Store, asid: Id, realm: Id, user: Id, at: Time) {
    asid in st.auths && var auth := st.auths[asid];
    auth.inOrder && auth.realm == realm && auth.selected == Some(user) && at < auth.expiresAt
  }

  /** A message is issued exactly while its session stands for the user for another whole
      second at least, and says so: from the second now to half an hour later or the last
      whole second of the session. */
  lemma IssueReplies(st: Store, asid: Id, user: Id, now: Time)
    ensures Issue(st, asid, user, now) ==
      if asid !in st.auths then None
      else
        var auth := st.auths[asid];
        var start := now / SECOND;
        var end := if start + 1800 <= auth.expiresAt / SECOND then start + 1800 else auth.expiresAt / SECOND;
        if !Stands(st, asid, auth.realm, user, start * SECOND) || end <= start then None
        else
          var claims := Claims(st.supply, user, auth.realm, auth.client, asid, start, end);
          Some((Store(st.messages[st.supply := Message(auth.realm, auth.client, user, asid, claims, start * SECOND,
                                                       end * SECOND, None)],
                      st.auths, st.supply + 1), claims))
  {
    if asid in st.auths {
      var start := WholeSeconds(now);
      WholeIsWhole(now);
      WholeIsWhole(Min(start + LIFETIME * SECOND, st.auths[asid].expiresAt));
      assert Floor(start + LIFETIME * SECOND) == Floor(now) + LIFETIME;
      LaterFloor(start + LIFETIME * SECOND, st.auths[asid].expiresAt);
      hide Related;
      RelatedStands(st, asid, st.auths[asid].realm, user, start);
    }
  }

  lemma LaterFloor(a: Time, b: Time)
    ensures Floor(Min(a, b)) == if Floor(a) <= Floor(b) then Floor(a) else Floor(b)
  {}

  lemma RelatedStands(st: Store, asid: Id, realm: Id, user: Id, at: Time)
    ensures Related(st, asid, realm, user, at) <==> Stands(st, asid, realm, user, at)
  {}

  /** Only the token of a stored message is consumed, in its own realm, and then its
      message is marked and nothing else changes. */
  lemma ConsumeReplies(st: Store, realm: Id, raw: Claims, now: Time)
    requires Ok(st)
    ensures Consume(st, realm, raw, now) ==
      if && raw.jti in st.messages && st.messages[raw.jti].hash == raw && raw.realm == realm
         && st.messages[raw.jti].consumedAt == None && raw.iat <= now / SECOND && now / SECOND < raw.exp
         && Stands(st, raw.asid, realm, raw.sub, now) && st.auths[raw.asid].client == raw.client
      then Some(Store(st.messages[raw.jti := st.messages[raw.jti].(consumedAt := Some(now))], st.auths, st.supply))
      else None
  {
    if raw.jti in st.messages && st.messages[raw.jti].hash == raw {
      var m := st.messages[raw.jti];
      assert RecordOk(raw.jti, m);
      RecordTimes(raw.jti, m);
      FloorBefore(now, raw.exp);
      FloorBefore(now, raw.iat);
      RelatedStands(st, raw.asid, realm, raw.sub, now);
    }
    hide Floor, Related, RecordOk;
  }

  lemma RecordTimes(jti: Id, m: Message)
    requires RecordOk(jti, m)
    ensures m.hash.iat < m.hash.exp && m.expiresAt == m.hash.exp * SECOND && m.createdAt == m.hash.iat * SECOND
    ensures Floor(m.createdAt) == m.hash.iat && Floor(m.expiresAt) == m.hash.exp
  {
    FloorBefore(m.createdAt, Floor(m.expiresAt));
  }

  datatype Step = IssueStep(asid: Id, user: Id, at: Time) | ConsumeStep(realm: Id, raw: Claims, at: Time)
    | AuthStep(asid: Id, auth: Option<AuthView>)

  /** Issues, consumptions and any change of the authentication sessions. */
  function Apply(st: Store, step: Step): Store {
    match step
    case IssueStep(asid, user, at) => var r := Issue(st, asid, user, at); if r.Some? then r.value.0 else st
    case ConsumeStep(realm, raw, at) => var r := Consume(st, realm, raw, at); if r.Some? then r.value else st
    case AuthStep(asid, auth) =>
      st.(auths := if auth.Some? then st.auths[asid := auth.value] else st.auths - {asid})
  }

  function Run(st: Store, steps: seq<Step>): Store
    decreases |steps|
  {
    if steps == [] then st else Run(Apply(st, steps[0]), steps[1..])
  }

  lemma {:induction false} ConsumedStays(st: Store, steps: seq<Step>, jti: Id)
    requires jti in st.messages && st.messages[jti].consumedAt.Some? && jti < st.supply
    ensures var after := Run(st, steps);
            jti in after.messages && after.messages[jti].consumedAt.Some? && jti < after.supply
    decreases |steps|
  {
    if steps != [] {
      hide Related, Consumable;
      ConsumedStays(Apply(st, steps[0]), steps[1..], jti);
    }
  }

  /** A reset message is consumed at most once in any run. */
  lemma MessagesWorkOnce(st: Store, realm: Id, raw: Claims, now: Time, steps: seq<Step>, realm': Id, now': Time)
    requires Ok(st) && Consume(st, realm, raw, now).Some?
    ensures Consume(Run(Consume(st, realm, raw, now).value, steps), realm', raw, now').None?
  {
    var after := Consume(st, realm, raw, now).value;
    assert raw.jti < st.supply;
    ConsumedStays(after, steps, raw.jti);
    hide Related, Floor;
  }

  /** What each step does: it keeps the records sound; an issue and a consumption do what
      their replies say and nothing when refused; any other change touches one
      authentication session. */
  lemma StepEffects(st: Store, step: Step)
    requires Ok(st)
    ensures var after := Apply(st, step);
            && Ok(after) && st.supply <= after.supply
            && match step
               case IssueStep(asid, user, at) =>
                 (match Issue(st, asid, user, at) case None => after == st case Some((next, _)) => after == next)
               case ConsumeStep(realm, raw, at) =>
                 (match Consume(st, realm, raw, at) case None => after == st case Some(next) => after == next)
               case AuthStep(asid, auth) =>
                 && after.messages == st.messages && after.supply == st.supply
                 && (forall x :: x in after.auths <==> if x == asid then auth != None else x in st.auths)
                 && (forall x | x in after.auths ::
                       Some(after.auths[x]) == if x == asid then auth else Some(st.auths[x]))
  {
    hide Related, Consumable, RecordOk;
    match step
    case IssueStep(asid, user, at) => if Issue(st, asid, user, at).Some? { IssueKeepsOk(st, asid, user, at); }
    case ConsumeStep(realm, raw, at) => if Consume(st, realm, raw, at).Some? { ConsumeKeepsOk(st, realm, raw, at); }
    case _ =>
  }

  /** The token of the message is consumed somewhere in the run. */
  predicate AcceptedIn(st: Store, steps: seq<Step>, jti: Id)
    decreases |steps|
  {
    steps != []
    && ((steps[0].ConsumeStep? && steps[0].raw.jti == jti
         && Consume(st, steps[0].realm, steps[0].raw, steps[0].at).Some?)
        || AcceptedIn(Apply(st, steps[0]), steps[1..], jti))
  }

  lemma StepKeepsMessage(st: Store, step: Step, jti: Id)
    requires Ok(st) && jti in st.messages
    ensures var after := Apply(st, step);
            && jti in after.messages
            && after.messages[jti] == st.messages[jti].(consumedAt := after.messages[jti].consumedAt)
            && (after.messages[jti].consumedAt != None <==>
                  st.messages[jti].consumedAt != None
                  || (step.ConsumeStep? && step.raw.jti == jti && Consume(st, step.realm, step.raw, step.at).Some?))
  {
    StepEffects(st, step);
    assert jti < st.supply;
    hide Related, Consumable, RecordOk, Apply;
  }

  /** Over every run a message keeps its columns, and it is consumed if and only if it was
      before or its token was accepted on the way. */
  lemma {:induction false} ConsumedIffAccepted(st: Store, steps: seq<Step>, jti: Id)
    requires Ok(st) && jti in st.messages
    ensures var after := Run(st, steps);
            && Ok(after) && jti in after.messages
            && after.messages[jti] == st.messages[jti].(consumedAt := after.messages[jti].consumedAt)
            && (after.messages[jti].consumedAt != None <==>
                  st.messages[jti].consumedAt != None || AcceptedIn(st, steps, jti))
    decreases |steps|
  {
    hide Ok, Apply, Consume;
    if steps != [] {
      StepEffects(st, steps[0]);
      StepKeepsMessage(st, steps[0], jti);
      ConsumedIffAccepted(Apply(st, steps[0]), steps[1..], jti);
    }
  }
}

/** Concurrent requests on one authentication session under its version column.

    A request reads a committed row and its version, computes its writes, and
    commits them only if the version is unchanged. Every accepted request writes the
    row (it rotates the session code), so the version check always applies. */
module LoginRace {
  import opened Prelude
  import opened FlowEngine
  import opened ResetCredentials

  /** `presented` is the one-time session code that a posted form carried; `env` is
      what the request found outside the row. */
  datatype Attempt = Attempt(version: nat, row: Login<Reset>, issued: bool, presented: Option<Id>,
                             env: Env, request: LoginRequest)

  /** The committed row with its version and current session code, the codes
      committed for it, the session codes that committed requests have spent, those
      requests in order, and the transactions in progress. New session codes are drawn
      from `supply`. */
  datatype State = State(row: Login<Reset>, version: nat, sessionCode: Id, supply: Id,
                         codes: nat, spent: seq<Id>, log: seq<LoginRequest>, pending: map<Id, Attempt>)

  datatype Action =
    | Begin(actor: Id, env: Env, request: LoginRequest, presented: Id)
    | Commit(actor: Id)
    | Rollback(actor: Id)

  /** Posted forms must carry the current session code; a GET of the reset page and an
      action token need none. */
  predicate NeedsCode(request: LoginRequest) {
    request.PasswordLogin? || request.SubmitReset? || request.AnswerAction?
  }

  function Next(flow: seq<Execution>, st: State, action: Action): State
    requires IsResetFlow(flow)
  {
    match action
    case Begin(a, env, request, presented) =>
      if a in st.pending || (NeedsCode(request) && presented != st.sessionCode) then st
      else
        (match Handle(env, flow, st.row, request)
         case Refuse => st
         case Write(row, issued) =>
           var code := if NeedsCode(request) then Some(presented) else None;
           st.(pending := st.pending[a := Attempt(st.version, row, issued, code, env, request)]))
    case Commit(a) =>
      if a !in st.pending then st
      else
        var attempt := st.pending[a];
        var left := st.pending - {a};
        if attempt.version != st.version then st.(pending := left)
        else State(attempt.row, st.version + 1, st.supply, st.supply + 1,
                   st.codes + (if attempt.issued then 1 else 0),
                   if attempt.presented.Some? then st.spent + [attempt.presented.value] else st.spent,
                   st.log + [attempt.request], left)
    case Rollback(a) => st.(pending := st.pending - {a})
  }

  function Run(flow: seq<Execution>, st: State, actions: seq<Action>): State
    requires IsResetFlow(flow)
    decreases |actions|
  {
    if actions == [] then st else Run(flow, Next(flow, st, actions[0]), actions[1..])
  }

  const NO_RESET := Reset(None, None, None, false, false, [], None, 0, {}, None)

  /** A login page was served, or a browser session was reused and its code issued
      with the row. */
  ghost predicate Initial(st: State) {
    && st.pending == map[] && st.spent == [] && st.log == [] && st.sessionCode < st.supply
    && ((st.row == Login(AtLogin, map[], None, false, false, NO_RESET) && st.codes == 0)
        || (exists user ::
              && st.row == Login(Authenticated, map[], None, false, false, NO_RESET.(selected := Some(user)))
              && st.codes == 1))
  }

  /** The committed row is sound, it has its code exactly when it says so, and an
      attempt that can still commit is a sound step from it. */
  ghost predicate Ok(flow: seq<Execution>, st: State)
    requires IsResetFlow(flow)
  {
    && RowOk(flow, st.row) && st.codes == (if st.row.column == Authenticated then 1 else 0)
    && st.sessionCode < st.supply && st.sessionCode !in st.spent
    && (forall i | 0 <= i < |st.spent| :: st.spent[i] < st.supply)
    && (forall i, j | 0 <= i < j < |st.spent| :: st.spent[i] != st.spent[j])
    && forall a | a in st.pending ::
         && st.pending[a].version <= st.version
         && (st.pending[a].version == st.version ==>
               GoodEffect(flow, st.row, Write(st.pending[a].row, st.pending[a].issued))
               && (st.pending[a].presented.Some? ==> st.pending[a].presented.value == st.sessionCode))
  }

  lemma InitialOk(flow: seq<Execution>, st: State)
    requires IsResetFlow(flow) && Initial(st)
    ensures Ok(flow, st)
  {}

  lemma NextKeepsOk(flow: seq<Execution>, st: State, action: Action)
    requires IsResetFlow(flow) && Ok(flow, st)
    ensures Ok(flow, Next(flow, st, action))
  {
    hide RowOk, Handle;
    if action.Begin? {
      HandleGood(action.env, flow, st.row, action.request);
    }
  }

  lemma {:induction false} RunKeepsOk(flow: seq<Execution>, st: State, actions: seq<Action>)
    requires IsResetFlow(flow) && Ok(flow, st)
    ensures Ok(flow, Run(flow, st, actions))
    decreases |actions|
  {
    hide Ok, Next;
    if actions != [] {
      NextKeepsOk(flow, st, actions[0]);
      RunKeepsOk(flow, Next(flow, st, actions[0]), actions[1..]);
    }
  }

  /** In every interleaving of logins, reset steps, selector detours, required
      actions and action tokens, at most one authorization code is committed for an
      authentication session. A code that came through the reset flow was preceded by
      the replacement of the selected user's password. */
  lemma AtMostOneCode(flow: seq<Execution>, st: State, actions: seq<Action>)
    requires IsResetFlow(flow) && Initial(st)
    ensures var after := Run(flow, st, actions);
            && after.codes <= 1 && (after.codes == 1 <==> after.row.column == Authenticated)
            && (after.codes == 1 && !NothingSucceeded(after.row) ==>
                  AllSuccessful(flow, after.row) && after.row.rest.selected.Some?
                  && after.row.rest.replacedFor == after.row.rest.selected)
  {
    InitialOk(flow, st);
    RunKeepsOk(flow, st, actions);
  }

  /** In every committed state, once the reset-password execution has succeeded its
      update is still queued or the selected user's password has been replaced. */
  lemma ScheduledUpdateIsNotLost(flow: seq<Execution>, st: State, actions: seq<Action>)
    requires IsResetFlow(flow) && Initial(st)
    ensures var row := Run(flow, st, actions).row;
            && (Successful(row, flow[2].id) ==>
                  row.rest.selected.Some?
                  && (UPDATE_PASSWORD in row.rest.queue || row.rest.replacedFor == row.rest.selected))
            && (row.rest.action.Some? ==> row.rest.queue != [] && row.rest.action.value == row.rest.queue[0])
  {
    InitialOk(flow, st);
    RunKeepsOk(flow, st, actions);
    var row := Run(flow, st, actions).row;
    assert row.column == Authenticated && NothingSucceeded(row) ==> !Successful(row, flow[2].id);
  }

  /** A one-time session code admits at most one committed request. */
  lemma SessionCodesWorkOnce(flow: seq<Execution>, st: State, actions: seq<Action>)
    requires IsResetFlow(flow) && Initial(st)
    ensures var spent := Run(flow, st, actions).spent;
            forall i, j | 0 <= i < j < |spent| :: spent[i] != spent[j]
  {
    InitialOk(flow, st);
    RunKeepsOk(flow, st, actions);
  }

  /** A request that posts a form is not even begun without the current session code;
      committed, it spends that code, and whatever is committed brings a new one. A commit
      on a row that has changed meanwhile, and a rollback, leave everything committed as
      it is. */
  lemma StepEffects(flow: seq<Execution>, st: State, actions: seq<Action>, a: Id, env: Env, request: LoginRequest,
                    presented: Id)
    requires IsResetFlow(flow) && Initial(st)
    ensures var s := Run(flow, st, actions);
            var begun, after := Next(flow, s, Begin(a, env, request, presented)), Next(flow, s, Commit(a));
            var posts := !request.ResumeReset? && !request.ActionToken?;
            && (begun == s || (begun == s.(pending := begun.pending) && begun.pending.Keys == s.pending.Keys + {a}))
            && (begun != s ==> a !in s.pending && (posts ==> presented == s.sessionCode)
                               && begun.pending[a].request == request && begun.pending[a].version == s.version
                               && begun.pending[a].presented == if posts then Some(presented) else None)
            && Next(flow, s, Rollback(a)) == s.(pending := s.pending - {a})
            && (a !in s.pending ==> after == s)
            && (a in s.pending && s.pending[a].version != s.version ==> after == s.(pending := s.pending - {a}))
            && (a in s.pending && s.pending[a].version == s.version ==>
                  && after.pending == s.pending - {a} && after.version == s.version + 1
                  && after.sessionCode != s.sessionCode && after.sessionCode !in s.spent
                  && after.spent == s.spent + (if s.pending[a].presented == None then [] else [s.sessionCode])
                  && after.log == s.log + [s.pending[a].request] && after.row == s.pending[a].row)
  {
    InitialOk(flow, st);
    RunKeepsOk(flow, st, actions);
    hide Run, Handle, RowOk, GoodEffect;
  }

  /** Once its code is committed, nothing changes the row any more. */
  lemma {:induction false} CodeIsFinal(flow: seq<Execution>, st: State, actions: seq<Action>)
    requires IsResetFlow(flow) && Ok(flow, st) && st.row.column == Authenticated
    ensures Run(flow, st, actions).row == st.row && Run(flow, st, actions).codes == st.codes
    decreases |actions|
  {
    hide Handle, RowOk;
    if actions != [] {
      NextKeepsOk(flow, st, actions[0]);
      CodeIsFinal(flow, Next(flow, st, actions[0]), actions[1..]);
    }
  }
}

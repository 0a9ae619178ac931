/** The three authenticators of the reset flow, the required action that replaces
    the password, and the transaction steps of the login actions.

    What other tables hold can differ at every request, so each request comes with
    an oracle `Env` for it. */
module ResetCredentials {
  import opened Prelude
  import opened FlowEngine
  import opened RequiredActions

  const CHOOSE_USER := "reset-credentials-choose-user"
  const RESET_EMAIL := "reset-credential-email"
  const RESET_PASSWORD := "reset-password"
  const UPDATE_PASSWORD := "UPDATE_PASSWORD"

  /** What a request finds outside the authentication session. */
  datatype Env = Env(
    ready: bool,            // realm, client, flow, cookie and session code are in order
    forms: bool,            // a form provider was configured
    found: Option<Id>,      // the user an identifier names
    userEnabled: bool,      // the selected user exists and is enabled
    userVerified: bool,     // and has a verified e-mail address
    userHasEmail: bool,     // and an e-mail address
    open: bool,             // the authentication session and the user session of a code have not expired
    mayMail: bool,          // a reset message can be issued
    passwordOk: bool,       // the new password is confirmed and meets the policy
    typedMode: bool)        // the pending update is kept in a column, not in a note

  /** The columns and notes that the authenticators and actions use. `mails` counts
      the reset messages of the session, `consumed` has the users that its consumed
      messages name; `replacedFor` remembers whose password the session has replaced. */
  datatype Reset = Reset(
    selected: Option<Id>, proofUser: Option<Id>, delivery: Option<(Id, Id)>,
    pendingNote: bool, allowed: bool, queue: seq<string>, action: Option<string>,
    mails: nat, consumed: set<Id>, replacedFor: Option<Id>)

  // ---------------------------------------------------------------- authenticators

  function AskForUser(env: Env, r: Reset): (Reset, seq<Status>) {
    (r, [if env.forms then CHALLENGE else FAILURE])
  }

  function ChooseUser(env: Env, r: Reset): (Reset, seq<Status>) {
    (r.(selected := env.found, pendingNote := false, allowed := false, proofUser := None, delivery := None), [SUCCESS])
  }

  predicate UserPresent(env: Env, r: Reset) { r.selected.Some? && env.userEnabled }

  /** The e-mail gate: passed by a consumed message, otherwise a message is sent at
      most once per execution and user, and the flow waits. */
  function EmailGate(env: Env, e: Id, r: Reset): (Reset, seq<Status>) {
    if UserPresent(env, r) && r.proofUser == r.selected && r.selected.value in r.consumed then (r, [SUCCESS])
    else if UserPresent(env, r) && env.userHasEmail && r.delivery != Some((e, r.selected.value)) then
      if env.mayMail then (r.(delivery := Some((e, r.selected.value)), mails := r.mails + 1), [FORK])
      else (r, [])
    else (r, [FORK])
  }

  function ConfirmEmail(env: Env, r: Reset): (Reset, seq<Status>) {
    (r, [if UserPresent(env, r) then SUCCESS else FAILURE])
  }

  function ScheduleUpdate(env: Env, r: Reset): (Reset, seq<Status>) {
    if !UserPresent(env, r) then (r, [FAILURE])
    else
      var queued := if UPDATE_PASSWORD in r.queue then r else r.(queue := r.queue + [UPDATE_PASSWORD]);
      (if env.typedMode then queued.(allowed := true) else queued.(pendingNote := true), [SUCCESS])
  }

  function Authenticators(env: Env, flow: seq<Execution>): map<string, Authenticator<Reset>>
    requires IsResetFlow(flow)
  {
    map[CHOOSE_USER := Authenticator(r => AskForUser(env, r), (r, form) => ChooseUser(env, r)),
        RESET_EMAIL := Authenticator(r => EmailGate(env, flow[1].id, r), (r, form) => ConfirmEmail(env, r)),
        RESET_PASSWORD := Authenticator(r => ScheduleUpdate(env, r), (r, form) => ScheduleUpdate(env, r))]
  }

  /** The executions that `ensure_reset_flow` creates, and any ordered copy of them. */
  predicate IsResetFlow(flow: seq<Execution>) {
    && |flow| == 3 && flow[0].id != flow[1].id && flow[0].id != flow[2].id && flow[1].id != flow[2].id
    && flow[0].authenticator == CHOOSE_USER && flow[1].authenticator == RESET_EMAIL
    && flow[2].authenticator == RESET_PASSWORD
  }

  // ---------------------------------------------------------------- the required action

  /** `_eligible`, in either mode. */
  predicate MayUpdate(env: Env, q: Queue<Reset>) {
    && UserPresent(env, q.rest) && env.userVerified
    && q.pending != [] && q.pending[0] == UPDATE_PASSWORD
    && (if env.typedMode then q.rest.allowed else q.rest.pendingNote)
  }

  function AskForPassword(env: Env, q: Queue<Reset>): (Reset, Answer) {
    (q.rest, if MayUpdate(env, q) && env.forms then Asked else Failed)
  }

  function UpdatePassword(env: Env, q: Queue<Reset>): (Reset, Answer) {
    if !MayUpdate(env, q) then (q.rest, Failed)
    else if !env.passwordOk then (q.rest, if env.forms then Asked else Failed)
    else (q.rest.(replacedFor := q.rest.selected, allowed := false, pendingNote := false, proofUser := None), Succeeded)
  }

  function Actions(env: Env): map<string, Provider<Reset>> {
    map[UPDATE_PASSWORD := Provider(q => AskForPassword(env, q), (q, form) => UpdatePassword(env, q))]
  }

  function QueueOf(r: Reset): Queue<Reset> { Queue(r.queue, r.action, r) }

  function WithQueue(l: Login<Reset>, q: Queue<Reset>): Login<Reset> {
    l.(rest := q.rest.(queue := q.pending, action := q.current))
  }

  // ---------------------------------------------------------------- transaction steps

  /** A request is refused and rolled back, or it commits a new row and possibly
      one authorization code. */
  datatype Effect = Refuse | Write(row: Login<Reset>, issued: bool)

  /** `AuthorizationService.issue` for the authentication session. */
  function IssueFor(env: Env, l: Login<Reset>, user: Id): Effect {
    if !env.open || !l.completed || l.column == Authenticated
       || (l.rest.selected.Some? && l.rest.selected.value != user)
    then Refuse
    else Write(l.(column := Authenticated, completed := false, current := None, selector := false,
                  rest := l.rest.(selected := Some(user))), true)
  }

  /** `complete_authentication`. */
  function CompleteFor(env: Env, l: Login<Reset>, user: Id): Effect {
    if l.rest.queue != [] then Refuse else IssueFor(env, l, user)
  }

  /** The end of `_flow_response`: a code for the selected user. */
  function FinishFlow(env: Env, l: Login<Reset>): Effect {
    if !UserPresent(env, l.rest) then Refuse else CompleteFor(env, l, l.rest.selected.value)
  }

  /** What `_flow_response` makes of the progress of the required actions. */
  function ActionResponse(env: Env, l: Login<Reset>, outcome: (Queue<Reset>, Progress)): Effect {
    match outcome.1
    case AllDone => FinishFlow(env, WithQueue(l, outcome.0))
    case AskedFor(_) => Write(WithQueue(l, outcome.0), false)
    case FailedAt(_) => Refuse
    case Invalid => Refuse
  }

  /** `_flow_response`: once the flow is complete, first the required actions. */
  function FlowResponse(env: Env, call: Call<Reset>): Effect {
    match call.outcome
    case Complete =>
      if call.login.rest.queue != [] then
        ActionResponse(env, call.login, Challenge(Actions(env), QueueOf(call.login.rest)))
      else FinishFlow(env, call.login)
    case Challenged(_) => Write(call.login, false)
    case Forked(_) => Write(call.login, false)
    case Selector(_) => Write(call.login, false)
    case ErrorPage(_) => Refuse
    case Raised => Refuse
  }

  /** The guards of `AuthenticationProcessor._flow`. */
  predicate FlowGuards(env: Env, flow: seq<Execution>, l: Login<Reset>) {
    && env.ready && (l.rest.selected.Some? ==> env.userEnabled)
    && (l.current.Some? ==> Known(flow, l.current.value))
  }

  datatype LoginRequest =
    | PasswordLogin(user: Option<Id>)
    | ResumeReset
    | SubmitReset(execution: Id, form: Form)
    | AnswerAction(provider: string, actionForm: Form)
    | ActionToken(tokenUser: Id)

  /** `authenticate`: refused once any execution has succeeded; wrong credentials
      only rotate the session code. */
  function HandlePassword(env: Env, l: Login<Reset>, user: Option<Id>): Effect {
    if !env.ready || l.column == Authenticated || (exists e | e in l.status :: l.status[e] == SUCCESS) then Refuse
    else if user.None? then Write(l, false)
    else CompleteFor(env, l.(completed := true), user.value)
  }

  /** `reset_credentials`, by GET or by POST. */
  function HandleReset(env: Env, flow: seq<Execution>, l: Login<Reset>, request: LoginRequest): Effect
    requires IsResetFlow(flow) && (request.ResumeReset? || request.SubmitReset?)
  {
    if l.column == Authenticated || !FlowGuards(env, flow, l) then Refuse
    else if request.ResumeReset? then FlowResponse(env, ProcessFlow(flow, Authenticators(env, flow), env.forms, l))
    else if l.current != Some(request.execution) then Refuse
    else FlowResponse(env,
                      ProcessAction(flow, Authenticators(env, flow), env.forms, l, request.execution, request.form))
  }

  /** `required_action`. */
  function HandleAction(env: Env, l: Login<Reset>, provider: string, form: Form): Effect {
    if !env.ready || l.column == Authenticated || l.rest.action != Some(provider) then Refuse
    else ActionResponse(env, l, ProcessRequired(Actions(env), QueueOf(l.rest), provider, form))
  }

  /** The row once a message that names `user` was consumed. */
  function Resumed(l: Login<Reset>, user: Id): Login<Reset> {
    l.(selector := false, rest := l.rest.(proofUser := Some(user), consumed := l.rest.consumed + {user}))
  }

  /** `action_token`: a message of this session is consumed and the flow resumed;
      this request does not look at the column of the current execution. */
  function HandleToken(env: Env, flow: seq<Execution>, l: Login<Reset>, user: Id): Effect
    requires IsResetFlow(flow)
  {
    if l.rest.mails == 0 || l.rest.selected != Some(user) || !env.userEnabled then Refuse
    else
      var resumed := Resumed(l, user);
      if !FlowGuards(env, flow, resumed) then Refuse
      else FlowResponse(env, ProcessFlow(flow, Authenticators(env, flow), env.forms, resumed))
  }

  function Handle(env: Env, flow: seq<Execution>, l: Login<Reset>, request: LoginRequest): Effect
    requires IsResetFlow(flow)
  {
    match request
    case PasswordLogin(user) => HandlePassword(env, l, user)
    case ResumeReset => HandleReset(env, flow, l, request)
    case SubmitReset(_, _) => HandleReset(env, flow, l, request)
    case AnswerAction(provider, form) => HandleAction(env, l, provider, form)
    case ActionToken(user) => HandleToken(env, flow, l, user)
  }

  // ---------------------------------------------------------------- invariant of a row

  /** Someone is selected, or a message was sent, only after the user was chosen;
      a scheduled update is still queued or has been carried out for the selected
      user; and the queue has nothing else. */
  predicate Progressed(flow: seq<Execution>, l: Login<Reset>)
    requires IsResetFlow(flow)
  {
    && (l.rest.selected.Some? || l.rest.mails > 0 ==> Successful(l, flow[0].id))
    && (Successful(l, flow[2].id) ==>
          l.rest.selected.Some? && (l.rest.queue == [UPDATE_PASSWORD] || l.rest.replacedFor == l.rest.selected))
    && (l.rest.queue == [] || (l.rest.queue == [UPDATE_PASSWORD] && Successful(l, flow[2].id)))
    && HeadIsCurrent(QueueOf(l.rest))
  }

  predicate NothingSucceeded(l: Login<Reset>) { !exists e | e in l.status :: l.status[e] == SUCCESS }

  /** A row that has its code came through the whole flow, or through a login that
      never touched the flow. */
  ghost predicate RowOk(flow: seq<Execution>, l: Login<Reset>)
    requires IsResetFlow(flow)
  {
    && Coherent(flow, l) && HeadIsCurrent(QueueOf(l.rest))
    && (l.column == Authenticated ==>
          && l.rest.queue == []
          && if NothingSucceeded(l) then l.rest.mails == 0
             else AllSuccessful(flow, l) && l.rest.selected.Some? && l.rest.replacedFor == l.rest.selected)
    && ((l.column == Authenticated && NothingSucceeded(l)) || Progressed(flow, l))
  }

  /** One result of an authenticator, recorded. */
  lemma ReportKeepsProgress(env: Env, flow: seq<Execution>, l: Login<Reset>, k: nat, acting: bool, form: Form)
    requires IsResetFlow(flow) && Progressed(flow, l) && k < 3 && !Successful(l, flow[k].id)
    requires var how := Authenticators(env, flow)[flow[k].authenticator];
             |(if acting then how.action(l.rest, form) else how.authenticate(l.rest)).1| == 1
    ensures var how := Authenticators(env, flow)[flow[k].authenticator];
            var (rest, results) := if acting then how.action(l.rest, form) else how.authenticate(l.rest);
            Progressed(flow, Reported(l.(rest := rest), flow[k].id, results[0]))
  {}

  lemma {:induction false} TraverseKeepsProgress(env: Env, flow: seq<Execution>, l: Login<Reset>, i: nat)
    requires IsResetFlow(flow) && Progressed(flow, l) && i <= 3
    requires Traverse(flow, Authenticators(env, flow), l, i).outcome != Raised
    ensures Progressed(flow, Traverse(flow, Authenticators(env, flow), l, i).login)
    decreases 3 - i
  {
    var registry := Authenticators(env, flow);
    if i < 3 {
      var e := flow[i];
      if Successful(l, e.id) {
        TraverseKeepsProgress(env, flow, l, i + 1);
      } else {
        var (rest, results) := registry[e.authenticator].authenticate(l.rest);
        assert |results| == 1;
        ReportKeepsProgress(env, flow, l, i, false, Form(None, false, map[]));
        if results[0] == SUCCESS {
          TraverseKeepsProgress(env, flow, Reported(l.(rest := rest), e.id, SUCCESS), i + 1);
        }
      }
    }
  }

  lemma ContinueKeepsProgress(env: Env, flow: seq<Execution>, l: Login<Reset>, k: nat, acting: bool, form: Form)
    requires IsResetFlow(flow) && Progressed(flow, l) && k < 3 && !Successful(l, flow[k].id)
    requires var how := Authenticators(env, flow)[flow[k].authenticator];
             var (rest, results) := if acting then how.action(l.rest, form) else how.authenticate(l.rest);
             Continue(flow, Authenticators(env, flow), l.(rest := rest), flow[k].id, results, 0).outcome != Raised
    ensures var how := Authenticators(env, flow)[flow[k].authenticator];
            var (rest, results) := if acting then how.action(l.rest, form) else how.authenticate(l.rest);
            Progressed(flow, Continue(flow, Authenticators(env, flow), l.(rest := rest), flow[k].id, results, 0).login)
  {
    var how := Authenticators(env, flow)[flow[k].authenticator];
    var (rest, results) := if acting then how.action(l.rest, form) else how.authenticate(l.rest);
    ReportKeepsProgress(env, flow, l, k, acting, form);
    if results[0] == SUCCESS {
      TraverseKeepsProgress(env, flow, Reported(l.(rest := rest), flow[k].id, SUCCESS), 0);
    }
  }

  lemma FlowKeepsProgress(env: Env, flow: seq<Execution>, l: Login<Reset>)
    requires IsResetFlow(flow) && Progressed(flow, l)
    requires ProcessFlow(flow, Authenticators(env, flow), env.forms, l).outcome != Raised
    ensures Progressed(flow, ProcessFlow(flow, Authenticators(env, flow), env.forms, l).login)
  {
    hide Progressed;
    if !(l.selector && l.current.Some?) { TraverseKeepsProgress(env, flow, l, 0); }
  }

  lemma SelectorIrrelevant(flow: seq<Execution>, l: Login<Reset>, selector: bool, column: Column, current: Option<Id>)
    requires IsResetFlow(flow) && Progressed(flow, l)
    ensures Progressed(flow, l.(selector := selector, column := column, current := current))
  {}

  lemma ActionKeepsProgress(env: Env, flow: seq<Execution>, l: Login<Reset>, e: Id, form: Form)
    requires IsResetFlow(flow) && Progressed(flow, l)
    requires ProcessAction(flow, Authenticators(env, flow), env.forms, l, e, form).outcome != Raised
    ensures Progressed(flow, ProcessAction(flow, Authenticators(env, flow), env.forms, l, e, form).login)
  {
    hide Progressed;
    if form.selected.Some? {
      var left := l.(selector := false);
      SelectorIrrelevant(flow, l, false, l.column, l.current);
      if Successful(left, form.selected.value) { TraverseKeepsProgress(env, flow, left, 0); }
      else { ContinueKeepsProgress(env, flow, left, IndexOf(flow, form.selected.value), false, form); }
    } else if form.tryAnotherWay {
      SelectorIrrelevant(flow, l, true, AtExecution(e), Some(e));
    } else {
      ContinueKeepsProgress(env, flow, l, IndexOf(flow, e), true, form);
    }
  }

  /** The required actions of a progressed row: what is asked or done keeps it so,
      and everything done means the password was replaced for the selected user. */
  lemma ChallengeKeepsProgress(env: Env, flow: seq<Execution>, l: Login<Reset>)
    requires IsResetFlow(flow) && Progressed(flow, l) && l.rest.queue != []
    ensures var (q, progress) := Challenge(Actions(env), QueueOf(l.rest));
            && progress != AllDone && (progress.AskedFor? ==> Progressed(flow, WithQueue(l, q)))
  {}

  lemma ProcessKeepsProgress(env: Env, flow: seq<Execution>, l: Login<Reset>, provider: string, form: Form)
    requires IsResetFlow(flow) && Progressed(flow, l)
    ensures var (q, progress) := ProcessRequired(Actions(env), QueueOf(l.rest), provider, form);
            && (progress.AskedFor? ==> Progressed(flow, WithQueue(l, q)))
            && (progress == AllDone ==> Progressed(flow, WithQueue(l, q)) && q.pending == []
                                        && q.rest.replacedFor == q.rest.selected)
  {
    var q := QueueOf(l.rest);
    if q.pending != [] && q.pending[0] == provider && q.current == Some(provider) {
      var (rest, answer) := UpdatePassword(env, q);
      if answer == Succeeded {
        var next := q.(rest := rest, pending := q.pending[1..], current := None);
        assert next.pending == [];
        assert ProcessRequired(Actions(env), q, provider, form) == Challenge(Actions(env), next);
      }
    }
  }

  /** A row that has its code accepts nothing more; any other is left sound, and
      gets a code exactly when it becomes authenticated. */
  ghost predicate GoodEffect(flow: seq<Execution>, l: Login<Reset>, effect: Effect)
    requires IsResetFlow(flow)
  {
    effect.Write? ==>
      l.column != Authenticated && RowOk(flow, effect.row) && (effect.issued <==> effect.row.column == Authenticated)
  }

  lemma PasswordGood(env: Env, flow: seq<Execution>, l: Login<Reset>, user: Option<Id>)
    requires IsResetFlow(flow) && RowOk(flow, l)
    ensures GoodEffect(flow, l, HandlePassword(env, l, user))
  {
    if HandlePassword(env, l, user).Write? {
      assert NothingSucceeded(l);
      assert !Successful(l, flow[0].id);
    }
  }

  /** The flow is done and nothing is queued: the code, or a refusal. */
  lemma FinishGood(env: Env, flow: seq<Execution>, a: Login<Reset>, l: Login<Reset>)
    requires IsResetFlow(flow) && Progressed(flow, l) && Coherent(flow, l) && a.column != Authenticated
    ensures GoodEffect(flow, a, FinishFlow(env, l))
  {
    if FinishFlow(env, l).Write? {
      assert AllSuccessful(flow, l) && Successful(l, flow[2].id);
      assert Successful(FinishFlow(env, l).row, flow[2].id);
    }
  }

  lemma FlowResponseGood(env: Env, flow: seq<Execution>, a: Login<Reset>, call: Call<Reset>)
    requires IsResetFlow(flow) && Progressed(flow, call.login) && Coherent(flow, call.login)
    requires a.column != Authenticated && call.login.column != Authenticated
    ensures GoodEffect(flow, a, FlowResponse(env, call))
  {
    if call.outcome == Complete {
      if call.login.rest.queue != [] {
        ChallengeKeepsProgress(env, flow, call.login);
      } else {
        FinishGood(env, flow, a, call.login);
      }
    }
    hide Challenge, FinishFlow, Progressed;
  }

  lemma ResetGood(env: Env, flow: seq<Execution>, l: Login<Reset>, request: LoginRequest)
    requires IsResetFlow(flow) && RowOk(flow, l) && (request.ResumeReset? || request.SubmitReset?)
    ensures GoodEffect(flow, l, HandleReset(env, flow, l, request))
  {
    hide GoodEffect, FlowResponse, Progressed, ProcessFlow, ProcessAction, Traverse;
    RefusalGood(flow, l);
    if HandleReset(env, flow, l, request).Write? {
      var registry := Authenticators(env, flow);
      var call := if request.ResumeReset? then ProcessFlow(flow, registry, env.forms, l)
                  else ProcessAction(flow, registry, env.forms, l, request.execution, request.form);
      assert call.outcome != Raised by { hide HandleReset; RaisedRefuses(env, call); }
      if request.ResumeReset? {
        ProcessFlowGood(flow, registry, env.forms, l);
        FlowKeepsProgress(env, flow, l);
        FlowKeepsColumn(flow, registry, env.forms, l);
      } else {
        ProcessActionGood(flow, registry, env.forms, l, request.execution, request.form);
        ActionKeepsProgress(env, flow, l, request.execution, request.form);
        ActionKeepsColumn(flow, registry, env.forms, l, request.execution, request.form);
      }
      FlowResponseGood(env, flow, l, call);
    }
  }

  lemma RefusalGood(flow: seq<Execution>, l: Login<Reset>)
    requires IsResetFlow(flow)
    ensures GoodEffect(flow, l, Refuse)
  {}

  lemma RaisedRefuses(env: Env, call: Call<Reset>)
    ensures call.outcome == Raised ==> FlowResponse(env, call) == Refuse
  {}

  /** The engine never writes the final mark into the column. */
  lemma {:induction false} TraverseKeepsColumn(flow: seq<Execution>, registry: map<string, Authenticator<Reset>>,
                                               l: Login<Reset>, i: nat)
    requires i <= |flow| && l.column != Authenticated
    ensures Traverse(flow, registry, l, i).login.column != Authenticated
    decreases |flow| - i
  {
    if i < |flow| {
      var e := flow[i];
      if Successful(l, e.id) {
        TraverseKeepsColumn(flow, registry, l, i + 1);
      } else if e.authenticator in registry {
        var (rest, results) := registry[e.authenticator].authenticate(l.rest);
        TraverseKeepsColumn(flow, registry, Reported(l.(rest := rest), e.id, SUCCESS), i + 1);
      }
    }
  }

  lemma FlowKeepsColumn(flow: seq<Execution>, registry: map<string, Authenticator<Reset>>, forms: bool, l: Login<Reset>)
    requires l.column != Authenticated
    ensures ProcessFlow(flow, registry, forms, l).login.column != Authenticated
  {
    TraverseKeepsColumn(flow, registry, l, 0);
  }

  lemma ActionKeepsColumn(flow: seq<Execution>, registry: map<string, Authenticator<Reset>>, forms: bool,
                          l: Login<Reset>, e: Id, form: Form)
    requires l.column != Authenticated
    ensures ProcessAction(flow, registry, forms, l, e, form).login.column != Authenticated
  {
    if form.selected.Some? && Known(flow, form.selected.value) {
      var left := l.(selector := false);
      var chosen := form.selected.value;
      var provider := flow[IndexOf(flow, chosen)].authenticator;
      TraverseKeepsColumn(flow, registry, left, 0);
      if provider in registry {
        var (rest, results) := registry[provider].authenticate(left.rest);
        ContinueKeepsColumn(flow, registry, left.(rest := rest), chosen, results);
      }
    } else if Known(flow, e) && flow[IndexOf(flow, e)].authenticator in registry {
      var (rest, results) := registry[flow[IndexOf(flow, e)].authenticator].action(l.rest, form);
      ContinueKeepsColumn(flow, registry, l.(rest := rest), e, results);
    }
  }

  lemma ContinueKeepsColumn(flow: seq<Execution>, registry: map<string, Authenticator<Reset>>, l: Login<Reset>,
                            e: Id, results: seq<Status>)
    requires l.column != Authenticated
    ensures Continue(flow, registry, l, e, results, 0).login.column != Authenticated
  {
    TraverseKeepsColumn(flow, registry, Reported(l, e, SUCCESS), 0);
  }

  lemma AnswerGood(env: Env, flow: seq<Execution>, l: Login<Reset>, provider: string, form: Form)
    requires IsResetFlow(flow) && RowOk(flow, l)
    ensures GoodEffect(flow, l, HandleAction(env, l, provider, form))
  {
    hide FinishFlow;
    if HandleAction(env, l, provider, form).Write? {
      var outcome := ProcessRequired(Actions(env), QueueOf(l.rest), provider, form);
      ProcessKeepsProgress(env, flow, l, provider, form);
      hide ProcessRequired, Progressed;
      var row := WithQueue(l, outcome.0);
      SameEngineState(flow, l, row);
      if outcome.1 == AllDone { FinishGood(env, flow, l, row); }
    }
  }

  lemma SameEngineState(flow: seq<Execution>, a: Login<Reset>, b: Login<Reset>)
    requires b == a.(rest := b.rest) && Coherent(flow, a)
    ensures Coherent(flow, b)
  {
    assert forall e :: Successful(a, e) <==> Successful(b, e);
  }

  /** The user may update the password now: selected, enabled and verified, with the
      update pending in the column or the note that the mode keeps it in. */
  predicate UpdatePending(env: Env, r: Reset) {
    r.selected != None && env.userEnabled && env.userVerified && if env.typedMode then r.allowed else r.pendingNote
  }

  /** The row once the new password was accepted and its code issued. */
  function Replaced(l: Login<Reset>): Login<Reset> {
    var r := l.rest;
    Login(Authenticated, l.status, None, false, false,
          Reset(r.selected, None, r.delivery, false, false, [], None, r.mails, r.consumed, r.selected))
  }

  /** The reply to a submitted action, case by case: a rejected password shows the form
      again and changes nothing, an accepted one is stored, leaves the queue and yields
      the code, and anything out of order is refused. */
  lemma AnswerReplies(env: Env, flow: seq<Execution>, l: Login<Reset>, provider: string, form: Form)
    requires IsResetFlow(flow) && RowOk(flow, l)
    ensures Handle(env, flow, l, AnswerAction(provider, form)) ==
      if !(env.ready && l.column != Authenticated && provider == UPDATE_PASSWORD && l.rest.action == Some(provider)
           && l.rest.queue == [provider])
      then Refuse
      else if !UpdatePending(env, l.rest) then Refuse
      else if !env.passwordOk then (if env.forms then Write(l, false) else Refuse)
      else if !(env.open && l.completed) then Refuse
      else Write(Replaced(l), true)
  {
    hide Coherent;
    var q := QueueOf(l.rest);
    if env.ready && l.column != Authenticated && l.rest.action == Some(provider) && q.pending != [] {
      assert q.pending == [UPDATE_PASSWORD];
      if q.pending[0] == provider {
        var (rest, answer) := UpdatePassword(env, q);
        var next := q.(rest := rest, pending := [], current := None);
        assert q.pending[1..] == [];
        assert Challenge(Actions(env), next) == (next, AllDone);
      }
    }
  }

  /** A message of a row that already has its code meets a completed flow with no
      action queued: the resumed flow completes again and `issue` refuses. */
  lemma TokenRefusedAfterCode(env: Env, flow: seq<Execution>, l: Login<Reset>, user: Id)
    requires IsResetFlow(flow) && RowOk(flow, l) && l.column == Authenticated
    ensures HandleToken(env, flow, l, user) == Refuse
  {
    hide ProcessFlow, Traverse, Progressed, Challenge;
    if l.rest.mails > 0 {
      var resumed := Resumed(l, user);
      assert AllSuccessful(flow, resumed) by { assert AllSuccessful(flow, l); }
      DoneFlowStaysDone(flow, Authenticators(env, flow), env.forms, resumed);
    }
  }

  lemma DoneFlowStaysDone(flow: seq<Execution>, registry: map<string, Authenticator<Reset>>, forms: bool,
                          l: Login<Reset>)
    requires AllSuccessful(flow, l) && !l.selector
    ensures ProcessFlow(flow, registry, forms, l) == Call(Finished(l), Complete, [])
  {
    AllSuccessfulTraverses(flow, registry, l, 0);
  }

  lemma TokenGood(env: Env, flow: seq<Execution>, l: Login<Reset>, user: Id)
    requires IsResetFlow(flow) && RowOk(flow, l)
    ensures GoodEffect(flow, l, HandleToken(env, flow, l, user))
  {
    hide GoodEffect, FlowResponse, ProcessFlow, Traverse;
    RefusalGood(flow, l);
    if l.column == Authenticated {
      TokenRefusedAfterCode(env, flow, l, user);
    } else if HandleToken(env, flow, l, user).Write? {
      var resumed := Resumed(l, user);
      var registry := Authenticators(env, flow);
      assert Progressed(flow, resumed) && Coherent(flow, resumed) by {
        assert Progressed(flow, l);
        assert forall e :: Successful(l, e) <==> Successful(resumed, e);
      }
      hide Progressed;
      var call := ProcessFlow(flow, registry, env.forms, resumed);
      assert call.outcome != Raised by { RaisedRefuses(env, call); }
      ProcessFlowGood(flow, registry, env.forms, resumed);
      FlowKeepsProgress(env, flow, resumed);
      FlowKeepsColumn(flow, registry, env.forms, resumed);
      FlowResponseGood(env, flow, l, call);
    }
  }

  lemma HandleGood(env: Env, flow: seq<Execution>, l: Login<Reset>, request: LoginRequest)
    requires IsResetFlow(flow) && RowOk(flow, l)
    ensures GoodEffect(flow, l, Handle(env, flow, l, request))
  {
    hide RowOk, GoodEffect, HandlePassword, HandleReset, HandleAction, HandleToken;
    match request
    case PasswordLogin(user) => PasswordGood(env, flow, l, user);
    case ResumeReset => ResetGood(env, flow, l, request);
    case SubmitReset(_, _) => ResetGood(env, flow, l, request);
    case AnswerAction(provider, form) => AnswerGood(env, flow, l, provider, form);
    case ActionToken(user) => TokenGood(env, flow, l, user);
  }
}

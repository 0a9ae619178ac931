/** Whether a code that comes through the reset flow proves that the user reads the
    mail, over every interleaving of requests. */
module ProofRuns {
  import opened Prelude
  import opened FlowEngine
  import opened RequiredActions
  import opened ResetCredentials
  import opened MailGate
  import opened LoginRace

  /** Some committed request was the form of the e-mail execution itself. */
  predicate OwnFormCommitted(flow: seq<Execution>, log: seq<LoginRequest>)
    requires IsResetFlow(flow)
  {
    exists i | 0 <= i < |log| :: OwnSubmission(flow, log[i])
  }

  predicate MessageConsumed(log: seq<LoginRequest>, user: Id) { ActionToken(user) in log }

  /** The consumed messages are those of committed requests; once the e-mail execution
      has succeeded one of them names the selected user, or its own form was committed;
      and an attempt that can still commit is a request on the committed row. */
  ghost predicate GateOk(flow: seq<Execution>, st: State)
    requires IsResetFlow(flow)
  {
    && (forall u | u in st.row.rest.consumed :: MessageConsumed(st.log, u))
    && (Successful(st.row, flow[1].id) ==>
          && Successful(st.row, flow[0].id)
          && (OwnFormCommitted(flow, st.log)
              || (st.row.rest.selected.Some? && st.row.rest.selected.value in st.row.rest.consumed)))
    && (forall a | a in st.pending && st.pending[a].version == st.version ::
          Handle(st.pending[a].env, flow, st.row, st.pending[a].request)
          == Write(st.pending[a].row, st.pending[a].issued))
  }

  lemma InitialGate(flow: seq<Execution>, st: State)
    requires IsResetFlow(flow) && Initial(st)
    ensures GateOk(flow, st)
  {}

  lemma LogGrows(flow: seq<Execution>, log: seq<LoginRequest>, request: LoginRequest)
    requires IsResetFlow(flow)
    ensures OwnFormCommitted(flow, log + [request]) <==> OwnFormCommitted(flow, log) || OwnSubmission(flow, request)
    ensures forall u :: MessageConsumed(log + [request], u) <==> MessageConsumed(log, u) || request == ActionToken(u)
  {
    assert (log + [request])[|log|] == request;
    if OwnFormCommitted(flow, log) {
      var i :| 0 <= i < |log| && OwnSubmission(flow, log[i]);
      assert (log + [request])[i] == log[i];
    }
  }

  /** What a committed request makes of the gate. */
  lemma CommitGate(flow: seq<Execution>, l: Login<Reset>, log: seq<LoginRequest>, env: Env, request: LoginRequest)
    requires IsResetFlow(flow) && RowOk(flow, l) && Handle(env, flow, l, request).Write?
    requires forall u | u in l.rest.consumed :: MessageConsumed(log, u)
    requires Successful(l, flow[1].id) ==>
      && Successful(l, flow[0].id)
      && (OwnFormCommitted(flow, log) || (l.rest.selected.Some? && l.rest.selected.value in l.rest.consumed))
    ensures var row, after := Handle(env, flow, l, request).row, log + [request];
      && (forall u | u in row.rest.consumed :: MessageConsumed(after, u))
      && (Successful(row, flow[1].id) ==>
            && Successful(row, flow[0].id)
            && (OwnFormCommitted(flow, after)
                || (row.rest.selected.Some? && row.rest.selected.value in row.rest.consumed)))
  {
    HandleGood(env, flow, l, request);
    hide Handle, OwnFormCommitted, MessageConsumed;
    var row := Handle(env, flow, l, request).row;
    LogGrows(flow, log, request);
    RequestKeepsProof(env, flow, l, request);
    if Successful(row, flow[1].id) {
      MailAfterChoice(env, flow, l, request);
      if !Successful(l, flow[1].id) { MailSucceedsIff(env, flow, l, request); }
    }
  }

  /** Once the e-mail execution has succeeded, so has the choice of the user. */
  lemma MailAfterChoice(env: Env, flow: seq<Execution>, l: Login<Reset>, request: LoginRequest)
    requires IsResetFlow(flow) && RowOk(flow, l) && Handle(env, flow, l, request).Write?
    requires Successful(l, flow[1].id) ==> Successful(l, flow[0].id)
    requires Successful(Handle(env, flow, l, request).row, flow[1].id)
    ensures Successful(Handle(env, flow, l, request).row, flow[0].id)
    ensures Successful(l, flow[1].id) ==>
      Handle(env, flow, l, request).row.rest.selected == l.rest.selected
  {
    HandleGood(env, flow, l, request);
    hide Handle, UserPresent;
    var row := Handle(env, flow, l, request).row;
    RequestKeepsProof(env, flow, l, request);
    if Successful(l, flow[1].id) {
      StatusKept(env, flow, l, request);
    } else {
      MailSucceedsIff(env, flow, l, request);
      PresentIsSelected(env, l.rest);
      if OwnSubmission(flow, request) {
        NotAuthenticated(env, flow, l, request);
        assert Successful(l, flow[0].id);
        StatusKept(env, flow, l, request);
      } else {
        assert row.rest.selected.Some?;
      }
    }
  }

  lemma PresentIsSelected(env: Env, r: Reset)
    ensures UserPresent(env, r) ==> r.selected.Some?
  {}

  lemma NotAuthenticated(env: Env, flow: seq<Execution>, l: Login<Reset>, request: LoginRequest)
    requires IsResetFlow(flow) && request.SubmitReset? && Handle(env, flow, l, request).Write?
    ensures l.column != Authenticated
  {
    hide FlowResponse, ProcessAction;
  }

  /** No request loses a success. */
  lemma StatusKept(env: Env, flow: seq<Execution>, l: Login<Reset>, request: LoginRequest)
    requires IsResetFlow(flow) && RowOk(flow, l) && Handle(env, flow, l, request).Write? && Successful(l, flow[0].id)
    ensures Successful(Handle(env, flow, l, request).row, flow[0].id)
  {
    hide FlowResponse, ProcessAction, ProcessFlow, Traverse, Authenticators, Progressed;
    match request
    case PasswordLogin(_) =>
    case AnswerAction(provider, form) => AnswersKeep(env, l, provider, form);
    case ResumeReset =>
      WrittenCall(env, ProcessFlow(flow, Authenticators(env, flow), env.forms, l));
      ProcessFlowGood(flow, Authenticators(env, flow), env.forms, l);
    case SubmitReset(e, form) =>
      WrittenCall(env, ProcessAction(flow, Authenticators(env, flow), env.forms, l, e, form));
      ProcessActionGood(flow, Authenticators(env, flow), env.forms, l, e, form);
    case ActionToken(user) =>
      SameEngineStateButSelector(flow, l, Resumed(l, user));
      WrittenCall(env, ProcessFlow(flow, Authenticators(env, flow), env.forms, Resumed(l, user)));
      ProcessFlowGood(flow, Authenticators(env, flow), env.forms, Resumed(l, user));
  }

  lemma SameEngineStateButSelector(flow: seq<Execution>, a: Login<Reset>, b: Login<Reset>)
    requires b == a.(rest := b.rest, selector := false) && Coherent(flow, a)
    ensures Coherent(flow, b) && (forall e :: Successful(a, e) <==> Successful(b, e))
  {}

  lemma NextKeepsGate(flow: seq<Execution>, st: State, action: Action)
    requires IsResetFlow(flow) && Ok(flow, st) && GateOk(flow, st)
    ensures GateOk(flow, Next(flow, st, action))
  {
    hide RowOk, Handle, GoodEffect, OwnFormCommitted, MessageConsumed;
    if action.Commit? && action.actor in st.pending && st.pending[action.actor].version == st.version {
      var attempt := st.pending[action.actor];
      CommitGate(flow, st.row, st.log, attempt.env, attempt.request);
    }
  }

  lemma {:induction false} RunKeepsGate(flow: seq<Execution>, st: State, actions: seq<Action>)
    requires IsResetFlow(flow) && Ok(flow, st) && GateOk(flow, st)
    ensures GateOk(flow, Run(flow, st, actions))
    decreases |actions|
  {
    hide Ok, Next, GateOk;
    if actions != [] {
      NextKeepsOk(flow, st, actions[0]);
      NextKeepsGate(flow, st, actions[0]);
      RunKeepsGate(flow, Next(flow, st, actions[0]), actions[1..]);
    }
  }

  /** In every interleaving, a code that came through the reset flow follows a consumed
      message that names the user, unless a form of the e-mail execution itself was
      committed. */
  lemma CodeNeedsMessage(flow: seq<Execution>, st: State, actions: seq<Action>)
    requires IsResetFlow(flow) && Initial(st)
    ensures var after := Run(flow, st, actions);
            after.codes == 1 && !NothingSucceeded(after.row) && !OwnFormCommitted(flow, after.log) ==>
              after.row.rest.selected.Some? && MessageConsumed(after.log, after.row.rest.selected.value)
  {
    hide OwnFormCommitted, MessageConsumed;
    AtMostOneCode(flow, st, actions);
    InitialOk(flow, st);
    InitialGate(flow, st);
    RunKeepsGate(flow, st, actions);
    hide Ok, Run;
    var after := Run(flow, st, actions);
    if after.codes == 1 && !NothingSucceeded(after.row) { assert Successful(after.row, flow[1].id); }
  }

  // ---------------------------------------------------------------- the form instead of the message

  const FLOW: seq<Execution> :=
    [Execution(1, CHOOSE_USER, true), Execution(2, RESET_EMAIL, true), Execution(3, RESET_PASSWORD, true)]

  /** An enabled user 7, and everything else in order. */
  const FOUND: Env := Env(true, true, Some(7), true, true, true, true, true, true, false)

  const PLAIN: Form := Form(None, false, map[])

  const CHOSEN: Reset := NO_RESET.(selected := Some(7), delivery := Some((2, 7)), mails := 1)

  const QUEUED: Reset :=
    CHOSEN.(queue := [UPDATE_PASSWORD], pendingNote := true, action := Some(UPDATE_PASSWORD))

  const DONE: map<Id, Status> := map[1 := SUCCESS, 2 := SUCCESS, 3 := SUCCESS]

  /** The row at first, asking for the user, waiting for the message, asking for the
      password, and with its code. */
  const FIRST: Login<Reset> := Login(AtLogin, map[], None, false, false, NO_RESET)
  const ASKED: Login<Reset> := Login(AtExecution(1), map[1 := CHALLENGE], Some(1), false, false, NO_RESET)
  const WAITING: Login<Reset> := Login(AtExecution(2), map[1 := SUCCESS, 2 := FORK], Some(2), false, false, CHOSEN)
  const UPDATING: Login<Reset> := Login(AtExecution(3), DONE, None, false, true, QUEUED)
  const CODED: Login<Reset> :=
    Login(Authenticated, DONE, None, false, false,
          QUEUED.(queue := [], action := None, pendingNote := false, replacedFor := Some(7)))

  lemma Registered()
    ensures var registry := Authenticators(FOUND, FLOW);
            && CHOOSE_USER in registry && RESET_EMAIL in registry && RESET_PASSWORD in registry
            && (forall r :: registry[CHOOSE_USER].authenticate(r) == AskForUser(FOUND, r))
            && (forall r, form :: registry[CHOOSE_USER].action(r, form) == ChooseUser(FOUND, r))
            && (forall r :: registry[RESET_EMAIL].authenticate(r) == EmailGate(FOUND, 2, r))
            && (forall r, form :: registry[RESET_EMAIL].action(r, form) == ConfirmEmail(FOUND, r))
            && (forall r :: registry[RESET_PASSWORD].authenticate(r) == ScheduleUpdate(FOUND, r))
    ensures IndexOf(FLOW, 1) == 0 && IndexOf(FLOW, 2) == 1 && Known(FLOW, 1) && Known(FLOW, 2)
  {
    assert FLOW[0].id == 1 && FLOW[1].id == 2;
    assert FLOW[1..][0].id == 2;
  }

  lemma AskingForTheUser()
    ensures Handle(FOUND, FLOW, FIRST, ResumeReset) == Write(ASKED, false)
  {
    Registered();
    hide Authenticators, IndexOf;
    var registry := Authenticators(FOUND, FLOW);
    assert registry[FLOW[0].authenticator].authenticate(NO_RESET) == (NO_RESET, [CHALLENGE]);
    assert FIRST.status[1 := CHALLENGE] == ASKED.status;
    assert Reported(FIRST, 1, CHALLENGE) == ASKED;
    assert Traverse(FLOW, registry, FIRST, 0) == Call(ASKED, Challenged(1), [1]);
  }

  lemma SendingTheMessage()
    ensures Handle(FOUND, FLOW, ASKED, SubmitReset(1, PLAIN)) == Write(WAITING, false)
  {
    Registered();
    hide Authenticators, IndexOf;
    var registry := Authenticators(FOUND, FLOW);
    var mid := Login(AtExecution(1), map[1 := SUCCESS], Some(1), false, false, NO_RESET.(selected := Some(7)));
    assert ASKED.status[1 := SUCCESS] == mid.status && mid.status[2 := FORK] == WAITING.status;
    assert Traverse(FLOW, registry, mid, 1) == Call(WAITING, Forked(2), [2]);
    assert Traverse(FLOW, registry, mid, 0) == Call(WAITING, Forked(2), [2]);
    assert ProcessAction(FLOW, registry, true, ASKED, 1, PLAIN) == Call(WAITING, Forked(2), [1, 2]);
  }

  lemma PostingItsForm()
    ensures Handle(FOUND, FLOW, WAITING, SubmitReset(2, PLAIN)) == Write(UPDATING, false)
  {
    Registered();
    hide Authenticators, IndexOf, FlowResponse;
    var registry := Authenticators(FOUND, FLOW);
    var mid := Login(AtExecution(2), map[1 := SUCCESS, 2 := SUCCESS], Some(2), false, false, CHOSEN);
    var end := Login(AtExecution(3), DONE, Some(3), false, false,
                     CHOSEN.(queue := [UPDATE_PASSWORD], pendingNote := true));
    assert WAITING.status[2 := SUCCESS] == mid.status && mid.status[3 := SUCCESS] == DONE;
    assert [] + [UPDATE_PASSWORD] == [UPDATE_PASSWORD];
    assert registry[FLOW[2].authenticator].authenticate(CHOSEN) == (end.rest, [SUCCESS]);
    assert Traverse(FLOW, registry, end, 3) == Call(Finished(end), Complete, []);
    assert Traverse(FLOW, registry, mid, 2) == Call(Finished(end), Complete, [3]);
    assert Traverse(FLOW, registry, mid, 1) == Call(Finished(end), Complete, [3]);
    assert Traverse(FLOW, registry, mid, 0) == Call(Finished(end), Complete, [3]);
    assert ProcessAction(FLOW, registry, true, WAITING, 2, PLAIN) == Call(Finished(end), Complete, [2, 3]);
    AskingForThePassword(Call(Finished(end), Complete, [2, 3]));
  }

  lemma AskingForThePassword(call: Call<Reset>)
    requires call.outcome == Complete
    requires call.login == Login(AtExecution(3), DONE, None, false, true,
                                 CHOSEN.(queue := [UPDATE_PASSWORD], pendingNote := true))
    ensures FlowResponse(FOUND, call) == Write(UPDATING, false)
  {
    var q := QueueOf(call.login.rest);
    assert UPDATE_PASSWORD in Actions(FOUND);
    assert Challenge(Actions(FOUND), q) == (q.(current := Some(UPDATE_PASSWORD)), AskedFor(UPDATE_PASSWORD));
  }

  lemma ReplacingThePassword()
    ensures Handle(FOUND, FLOW, UPDATING, AnswerAction(UPDATE_PASSWORD, PLAIN)) == Write(CODED, true)
  {
    var q := QueueOf(QUEUED);
    var rest := QUEUED.(replacedFor := Some(7), pendingNote := false);
    assert UpdatePassword(FOUND, q) == (rest, Succeeded);
    assert q.pending[1..] == [] && UPDATE_PASSWORD in Actions(FOUND);
    var next := q.(rest := rest, pending := [], current := None);
    assert Challenge(Actions(FOUND), next) == (next, AllDone);
    assert Conclude(Actions(FOUND), q.(rest := rest), UPDATE_PASSWORD, Succeeded) == (next, AllDone);
    assert ProcessRequired(Actions(FOUND), q, UPDATE_PASSWORD, PLAIN) == (Queue([], None, rest), AllDone);
  }

  /** One request after the other, each with the current session code. */
  function Visits(requests: seq<LoginRequest>, code: Id): seq<Action>
    decreases |requests|
  {
    if requests == [] then []
    else [Begin(0, FOUND, requests[0], code), Commit(0)] + Visits(requests[1..], code + 1)
  }

  /** The state after one such request. */
  lemma Visited(st: State, request: LoginRequest, row: Login<Reset>, issued: bool, rest: seq<Action>)
    returns (after: State)
    requires st.pending == map[] && st.supply == st.sessionCode + 1
    requires Handle(FOUND, FLOW, st.row, request) == Write(row, issued)
    ensures Run(FLOW, st, [Begin(0, FOUND, request, st.sessionCode), Commit(0)] + rest) == Run(FLOW, after, rest)
    ensures after == State(row, st.version + 1, st.supply, st.supply + 1, st.codes + (if issued then 1 else 0),
                           after.spent, st.log + [request], map[])
  {
    hide Handle;
    var steps := [Begin(0, FOUND, request, st.sessionCode), Commit(0)] + rest;
    var begun := Next(FLOW, st, steps[0]);
    after := Next(FLOW, begun, Commit(0));
    assert steps[1..] == [Commit(0)] + rest && ([Commit(0)] + rest)[1..] == rest;
    hide Next;
    assert Run(FLOW, begun, [Commit(0)] + rest) == Run(FLOW, after, rest);
  }

  const LOGIN_PAGE: State := State(FIRST, 0, 0, 1, 0, [], [], map[])

  const REQUESTS: seq<LoginRequest> :=
    [ResumeReset, SubmitReset(1, PLAIN), SubmitReset(2, PLAIN), AnswerAction(UPDATE_PASSWORD, PLAIN)]

  /** The form of the e-mail execution does instead of the message: from the login
      page, asking for a reset, naming a user, posting that form and choosing a
      password yields a code, though no message was ever consumed. */
  lemma CodeWithoutMessage()
    ensures Initial(LOGIN_PAGE) && IsResetFlow(FLOW)
    ensures var after := Run(FLOW, LOGIN_PAGE, Visits(REQUESTS, 0));
            && after.codes == 1 && !NothingSucceeded(after.row) && after.log == REQUESTS
            && after.row.rest.selected == Some(7) && after.row.rest.replacedFor == Some(7)
            && after.row.rest.consumed == {} && !MessageConsumed(after.log, 7)
  {
    AskingForTheUser();
    SendingTheMessage();
    PostingItsForm();
    ReplacingThePassword();
    VisitsUnfolded();
    hide Handle, Run, Visits, Next;
    var a := Visited(LOGIN_PAGE, ResumeReset, ASKED, false, Visits(REQUESTS[1..], 1));
    var b := Visited(a, SubmitReset(1, PLAIN), WAITING, false, Visits(REQUESTS[2..], 2));
    var c := Visited(b, SubmitReset(2, PLAIN), UPDATING, false, Visits(REQUESTS[3..], 3));
    var d := Visited(c, AnswerAction(UPDATE_PASSWORD, PLAIN), CODED, true, []);
    assert Run(FLOW, d, []) == d by { RunEnds(d); }
    assert d.log == REQUESTS;
    assert 1 in CODED.status && CODED.status[1] == SUCCESS;
  }

  lemma RunEnds(st: State)
    ensures Run(FLOW, st, []) == st
  {}

  lemma VisitsUnfolded()
    ensures Visits(REQUESTS, 0) == [Begin(0, FOUND, ResumeReset, 0), Commit(0)] + Visits(REQUESTS[1..], 1)
    ensures Visits(REQUESTS[1..], 1)
            == [Begin(0, FOUND, SubmitReset(1, PLAIN), 1), Commit(0)] + Visits(REQUESTS[2..], 2)
    ensures Visits(REQUESTS[2..], 2)
            == [Begin(0, FOUND, SubmitReset(2, PLAIN), 2), Commit(0)] + Visits(REQUESTS[3..], 3)
    ensures Visits(REQUESTS[3..], 3) == [Begin(0, FOUND, AnswerAction(UPDATE_PASSWORD, PLAIN), 3), Commit(0)] + []
  {
    assert REQUESTS[1..][1..] == REQUESTS[2..] && REQUESTS[2..][1..] == REQUESTS[3..] && REQUESTS[3..][1..] == [];
  }
}

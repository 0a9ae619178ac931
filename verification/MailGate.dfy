/** When the e-mail execution of the reset flow succeeds. */
module MailGate {
  import opened Prelude
  import opened FlowEngine
  import opened RequiredActions
  import opened ResetCredentials

  /** A consumed reset message of this session names the selected user. */
  predicate Proven(r: Reset) {
    r.selected.Some? && r.proofUser == r.selected && r.selected.value in r.consumed
  }

  /** The form that the e-mail execution itself posts. */
  predicate OwnForm(flow: seq<Execution>, e: Id, form: Form)
    requires IsResetFlow(flow)
  {
    e == flow[1].id && form.selected.None? && !form.tryAnotherWay
  }

  predicate OwnSubmission(flow: seq<Execution>, request: LoginRequest)
    requires IsResetFlow(flow)
  {
    request.SubmitReset? && OwnForm(flow, request.execution, request.form)
  }

  /** What no authenticator of the flow changes when it is asked to authenticate. */
  predicate SameProof(a: Reset, b: Reset) {
    b.selected == a.selected && b.proofUser == a.proofUser && b.consumed == a.consumed
  }

  /** Asked to authenticate, the first execution never succeeds, the e-mail execution
      exactly with proof and the last one exactly for a user who is enabled; no execution
      selects a user or proves anything. */
  lemma GateIff(env: Env, flow: seq<Execution>, r: Reset, i: nat)
    requires IsResetFlow(flow) && i < 3
    ensures flow[i].authenticator in Authenticators(env, flow)
    ensures var (rest, results) := Authenticators(env, flow)[flow[i].authenticator].authenticate(r);
            && SameProof(r, rest) && |results| <= 1 && (i == 0 ==> results != [SUCCESS])
            && (i == 1 ==> (results == [SUCCESS] <==> env.userEnabled && Proven(r)))
            && (i == 2 ==> (results == [SUCCESS] <==> UserPresent(env, r)))
  {}

  /** With its own form the e-mail execution succeeds exactly for a selected user who
      is enabled; only the form of the first execution selects a user. */
  lemma FormIff(env: Env, flow: seq<Execution>, r: Reset, i: nat, form: Form)
    requires IsResetFlow(flow) && i < 3
    ensures flow[i].authenticator in Authenticators(env, flow)
    ensures var (rest, results) := Authenticators(env, flow)[flow[i].authenticator].action(r, form);
            && rest.consumed == r.consumed && (i > 0 ==> SameProof(r, rest)) && (i == 0 ==> !Proven(rest))
            && (i > 0 ==> (results == [SUCCESS] <==> UserPresent(env, r)))
  {}

  /** Whoever is proven is selected. */
  lemma ProvenIsSelected(env: Env, r: Reset)
    ensures env.userEnabled && Proven(r) ==> UserPresent(env, r)
  {}

  lemma {:induction false} TraversalIff(env: Env, flow: seq<Execution>, l: Login<Reset>, i: nat)
    requires IsResetFlow(flow) && i <= 3 && Traverse(flow, Authenticators(env, flow), l, i).outcome != Raised
    ensures var call := Traverse(flow, Authenticators(env, flow), l, i);
            && SameProof(l.rest, call.login.rest)
            && (Successful(call.login, flow[1].id) <==>
                  || Successful(l, flow[1].id)
                  || (i <= 1 && (i == 0 ==> Successful(l, flow[0].id)) && env.userEnabled && Proven(l.rest)))
    decreases 3 - i
  {
    hide Authenticators, Proven;
    var registry := Authenticators(env, flow);
    if i < 3 {
      var e := flow[i];
      GateIff(env, flow, l.rest, i);
      if Successful(l, e.id) {
        TraversalIff(env, flow, l, i + 1);
      } else {
        var (rest, results) := registry[e.authenticator].authenticate(l.rest);
        ProofStays(l.rest, rest);
        if results[0] == SUCCESS {
          TraversalIff(env, flow, Reported(l.(rest := rest), e.id, SUCCESS), i + 1);
        }
      }
    }
  }

  lemma ProofStays(a: Reset, b: Reset)
    requires SameProof(a, b)
    ensures Proven(a) <==> Proven(b)
  {}

  /** After one result of execution `e`. */
  lemma ContinueIff(env: Env, flow: seq<Execution>, l: Login<Reset>, e: Id, results: seq<Status>)
    requires IsResetFlow(flow) && !Successful(l, e)
    requires Continue(flow, Authenticators(env, flow), l, e, results, 0).outcome != Raised
    ensures var call := Continue(flow, Authenticators(env, flow), l, e, results, 0);
            && SameProof(l.rest, call.login.rest) && |results| == 1
            && (Successful(call.login, flow[1].id) <==>
                  || Successful(l, flow[1].id)
                  || (results == [SUCCESS]
                      && (|| e == flow[1].id
                          || ((e == flow[0].id || Successful(l, flow[0].id)) && env.userEnabled && Proven(l.rest)))))
  {
    hide Authenticators, Proven;
    if results[0] == SUCCESS { TraversalIff(env, flow, Reported(l, e, SUCCESS), 0); }
  }

  lemma FlowIff(env: Env, flow: seq<Execution>, l: Login<Reset>)
    requires IsResetFlow(flow) && ProcessFlow(flow, Authenticators(env, flow), env.forms, l).outcome != Raised
    ensures var call := ProcessFlow(flow, Authenticators(env, flow), env.forms, l);
            && SameProof(l.rest, call.login.rest)
            && (Successful(call.login, flow[1].id) <==>
                  || Successful(l, flow[1].id)
                  || (!(l.selector && l.current.Some?) && Successful(l, flow[0].id) && env.userEnabled
                      && Proven(l.rest)))
  {
    hide Authenticators, Traverse, Proven;
    if !(l.selector && l.current.Some?) { TraversalIff(env, flow, l, 0); }
  }

  lemma SelectionIff(env: Env, flow: seq<Execution>, l: Login<Reset>, chosen: Id)
    requires IsResetFlow(flow) && ProcessSelection(flow, Authenticators(env, flow), l, chosen).outcome != Raised
    ensures var call := ProcessSelection(flow, Authenticators(env, flow), l, chosen);
            && SameProof(l.rest, call.login.rest)
            && (Successful(call.login, flow[1].id) <==>
                  || Successful(l, flow[1].id)
                  || ((chosen == flow[1].id || Successful(l, flow[0].id)) && env.userEnabled && Proven(l.rest)))
  {
    hide Authenticators, Traverse, Continue, IndexOf, Proven;
    var left := l.(selector := false);
    ProvenIsSelected(env, l.rest);
    if Successful(left, chosen) {
      TraversalIff(env, flow, left, 0);
    } else {
      var i := IndexOf(flow, chosen);
      GateIff(env, flow, left.rest, i);
      var (rest, results) := Authenticators(env, flow)[flow[i].authenticator].authenticate(left.rest);
      ProofStays(left.rest, rest);
      ContinueIff(env, flow, left.(rest := rest), chosen, results);
    }
  }

  /** A form that is not the e-mail execution's own comes to that execution if it was
      chosen or the first one has succeeded. */
  predicate FormReaches(flow: seq<Execution>, l: Login<Reset>, form: Form)
    requires IsResetFlow(flow)
  {
    if form.selected.Some? then form.selected.value == flow[1].id || Successful(l, flow[0].id)
    else !form.tryAnotherWay && Successful(l, flow[0].id)
  }

  /** A form: what it keeps, and when the e-mail execution comes to succeed. */
  lemma ActionIff(env: Env, flow: seq<Execution>, l: Login<Reset>, e: Id, form: Form)
    requires IsResetFlow(flow)
    requires ProcessAction(flow, Authenticators(env, flow), env.forms, l, e, form).outcome != Raised
    ensures var call := ProcessAction(flow, Authenticators(env, flow), env.forms, l, e, form);
            && call.login.rest.consumed == l.rest.consumed
            && (Successful(l, flow[0].id) ==> call.login.rest.selected == l.rest.selected)
            && (FormReaches(flow, l, form) ==> SameProof(l.rest, call.login.rest))
            && (Successful(call.login, flow[1].id) <==>
                  || Successful(l, flow[1].id)
                  || if OwnForm(flow, e, form) then UserPresent(env, l.rest)
                     else FormReaches(flow, l, form) && env.userEnabled && Proven(l.rest))
  {
    hide Authenticators, Traverse, Continue, IndexOf, ProcessSelection, Proven;
    if form.selected.Some? {
      SelectionIff(env, flow, l, form.selected.value);
    } else if !form.tryAnotherWay {
      var i := IndexOf(flow, e);
      FormIff(env, flow, l.rest, i, form);
      var (rest, results) := Authenticators(env, flow)[flow[i].authenticator].action(l.rest, form);
      ContinueIff(env, flow, l.(rest := rest), e, results);
      ProvenIsSelected(env, l.rest);
      if i > 0 { ProofStays(l.rest, rest); }
    }
  }

  /** The response keeps statuses, the selected user and the proof. */
  lemma ResponseKeepsProof(env: Env, call: Call<Reset>)
    requires FlowResponse(env, call).Write?
    ensures var row := FlowResponse(env, call).row;
            row.status == call.login.status && SameProof(call.login.rest, row.rest)
  {
    hide Actions;
    if call.outcome == Complete { AskingKeepsRest(env, QueueOf(call.login.rest)); }
  }

  lemma AskingKeepsRest(env: Env, q: Queue<Reset>)
    ensures Challenge(Actions(env), q).0.rest == q.rest
  {}

  /** What a request finds: the row, resumed if the request is a message. */
  function Found(l: Login<Reset>, request: LoginRequest): Login<Reset> {
    if request.ActionToken? then Resumed(l, request.tokenUser) else l
  }

  /** A request other than the e-mail execution's own form comes to that execution. */
  predicate Reaches(flow: seq<Execution>, l: Login<Reset>, request: LoginRequest)
    requires IsResetFlow(flow)
  {
    match request
    case ResumeReset => !(l.selector && l.current.Some?) && Successful(l, flow[0].id)
    case SubmitReset(_, form) => FormReaches(flow, l, form)
    case ActionToken(_) => Successful(l, flow[0].id)
    case _ => false
  }

  /** Exactly when a committed request makes the e-mail execution succeed, in terms of
      the row before: with the execution's own form for any selected user who is enabled,
      otherwise if the request comes to the execution, for an enabled user whom a
      consumed message of this session names, and then the proof is kept. */
  lemma MailSucceedsIff(env: Env, flow: seq<Execution>, l: Login<Reset>, request: LoginRequest)
    requires IsResetFlow(flow) && Handle(env, flow, l, request).Write? && !Successful(l, flow[1].id)
    ensures Successful(Handle(env, flow, l, request).row, flow[1].id) <==>
              if OwnSubmission(flow, request) then UserPresent(env, l.rest)
              else Reaches(flow, l, request) && env.userEnabled && Proven(Found(l, request).rest)
    ensures Reaches(flow, l, request) ==> SameProof(Found(l, request).rest, Handle(env, flow, l, request).row.rest)
  {
    hide FlowResponse, ProcessAction, ProcessFlow, Traverse, Proven, Authenticators;
    match request
    case PasswordLogin(_) =>
    case AnswerAction(provider, form) => AnswersKeep(env, l, provider, form);
    case ResumeReset =>
      WrittenCall(env, ProcessFlow(flow, Authenticators(env, flow), env.forms, l));
      FlowIff(env, flow, l);
    case SubmitReset(e, form) =>
      WrittenCall(env, ProcessAction(flow, Authenticators(env, flow), env.forms, l, e, form));
      ActionIff(env, flow, l, e, form);
    case ActionToken(user) =>
      WrittenCall(env, ProcessFlow(flow, Authenticators(env, flow), env.forms, Resumed(l, user)));
      FlowIff(env, flow, Resumed(l, user));
  }

  lemma WrittenCall(env: Env, call: Call<Reset>)
    requires FlowResponse(env, call).Write?
    ensures call.outcome != Raised
    ensures var row := FlowResponse(env, call).row;
            row.status == call.login.status && SameProof(call.login.rest, row.rest)
  {
    hide FlowResponse;
    RaisedRefuses(env, call);
    ResponseKeepsProof(env, call);
  }

  lemma AnswersKeep(env: Env, l: Login<Reset>, provider: string, form: Form)
    requires HandleAction(env, l, provider, form).Write?
    ensures var row := HandleAction(env, l, provider, form).row;
            row.status == l.status && row.rest.selected == l.rest.selected && row.rest.consumed == l.rest.consumed
  {
    hide Challenge, Actions;
    AnsweringKeeps(env, QueueOf(l.rest), provider, form);
    hide ProcessRequired;
  }

  lemma AnsweringKeeps(env: Env, q: Queue<Reset>, provider: string, form: Form)
    ensures var rest := ProcessRequired(Actions(env), q, provider, form).0.rest;
            rest.selected == q.rest.selected && rest.consumed == q.rest.consumed
  {
    if q.pending != [] && q.pending[0] == provider && q.current == Some(provider) && provider in Actions(env) {
      var (rest, answer) := UpdatePassword(env, q);
      AskingKeepsRest(env, q.(rest := rest, pending := q.pending[1..], current := None));
    }
    hide Challenge;
  }

  /** A request adds to the consumed messages exactly the one it consumes, and once a
      user has been chosen the selection stays. */
  lemma RequestKeepsProof(env: Env, flow: seq<Execution>, l: Login<Reset>, request: LoginRequest)
    requires IsResetFlow(flow) && Handle(env, flow, l, request).Write?
    ensures var row := Handle(env, flow, l, request).row;
            && row.rest.consumed == l.rest.consumed + (if request.ActionToken? then {request.tokenUser} else {})
            && (Successful(l, flow[0].id) ==> row.rest.selected == l.rest.selected)
  {
    hide FlowResponse, ProcessAction, ProcessFlow, Traverse, Proven, Authenticators;
    match request
    case PasswordLogin(_) =>
    case AnswerAction(provider, form) => AnswersKeep(env, l, provider, form);
    case ResumeReset =>
      WrittenCall(env, ProcessFlow(flow, Authenticators(env, flow), env.forms, l));
      FlowIff(env, flow, l);
    case SubmitReset(e, form) =>
      WrittenCall(env, ProcessAction(flow, Authenticators(env, flow), env.forms, l, e, form));
      ActionIff(env, flow, l, e, form);
    case ActionToken(user) =>
      WrittenCall(env, ProcessFlow(flow, Authenticators(env, flow), env.forms, Resumed(l, user)));
      FlowIff(env, flow, Resumed(l, user));
  }
}

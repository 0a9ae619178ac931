/** The login actions as they change the authentication session in place, proved
    against the transaction steps. A step that is not accepted raises, and the
    caller rolls the transaction back. */
module LoginActions {
  import opened Prelude
  import opened FlowEngine
  import opened RequiredActions
  import opened ResetCredentials

  /** What the transaction makes durable. */
  ghost function EffectOf(accepted: bool, issued: bool, row: Login<Reset>): Effect {
    if accepted then Write(row, issued) else Refuse
  }

  /** `AuthorizationService.issue`, after the check of `complete_authentication`. */
  method IssueCode(session: AuthenticationSession<Reset>, env: Env, user: Id) returns (accepted: bool)
    modifies session
    ensures EffectOf(accepted, true, session.View()) == CompleteFor(env, old(session.View()), user)
    ensures var l := old(session.View());
            accepted <==> env.open && l.completed && l.column != Authenticated && l.rest.queue == []
                          && l.rest.selected in {None, Some(user)}
  {
    var rest := session.rest;
    if rest.queue != [] || !env.open || !session.completed || session.column == Authenticated
       || (rest.selected.Some? && rest.selected.value != user)
    {
      return false;
    }
    session.rest := rest.(selected := Some(user));
    session.column := Authenticated;
    session.completed := false;
    session.current := None;
    session.selector := false;
    return true;
  }

  /** The code for the selected user once nothing is left to do. */
  method FinishLogin(session: AuthenticationSession<Reset>, env: Env) returns (accepted: bool)
    modifies session
    ensures EffectOf(accepted, true, session.View()) == FinishFlow(env, old(session.View()))
  {
    if session.rest.selected.None? || !env.userEnabled {
      return false;
    }
    accepted := IssueCode(session, env, session.rest.selected.value);
  }

  /** Run the required actions on the queue of the session and write it back. */
  method ChallengeNext(session: AuthenticationSession<Reset>, env: Env) returns (progress: Progress)
    modifies session
    ensures var outcome := Challenge(Actions(env), QueueOf(old(session.View()).rest));
            progress == outcome.1 && session.View() == WithQueue(old(session.View()), outcome.0)
  {
    var manager := new AuthenticationManager(QueueOf(session.rest), Actions(env));
    progress := manager.RequiredActionChallenge();
    session.rest := manager.rest.(queue := manager.pending, action := manager.current);
  }

  method AnswerCurrent(session: AuthenticationSession<Reset>, env: Env, provider: string, form: Form)
    returns (progress: Progress)
    modifies session
    ensures var outcome := ProcessRequired(Actions(env), QueueOf(old(session.View()).rest), provider, form);
            progress == outcome.1 && session.View() == WithQueue(old(session.View()), outcome.0)
  {
    var manager := new AuthenticationManager(QueueOf(session.rest), Actions(env));
    progress := manager.Process(provider, form);
    session.rest := manager.rest.(queue := manager.pending, action := manager.current);
  }

  /** `_flow_response`. */
  method RespondToFlow(session: AuthenticationSession<Reset>, env: Env, outcome: Outcome)
    returns (accepted: bool, issued: bool)
    modifies session
    ensures EffectOf(accepted, issued, session.View()) == FlowResponse(env, Call(old(session.View()), outcome, []))
  {
    accepted, issued := false, false;
    var complete := outcome == Complete;
    if complete && session.rest.queue != [] {
      var progress := ChallengeNext(session, env);
      if progress.AskedFor? {
        accepted := true;
        return;
      }
      complete := progress == AllDone;
      if !complete {
        return;
      }
    }
    if complete {
      accepted := FinishLogin(session, env);
      issued := accepted;
      return;
    }
    accepted := outcome.Challenged? || outcome.Forked? || outcome.Selector?;
  }

  /** The response depends on the state and the outcome only. */
  lemma ResponseIgnoresTrace(env: Env, call: Call<Reset>)
    ensures FlowResponse(env, call) == FlowResponse(env, Call(call.login, call.outcome, []))
  {}

  /** `reset_credentials`. */
  method ResetStep(session: AuthenticationSession<Reset>, env: Env, flow: seq<Execution>, request: LoginRequest)
    returns (accepted: bool, issued: bool)
    requires IsResetFlow(flow) && (request.ResumeReset? || request.SubmitReset?)
    modifies session
    ensures EffectOf(accepted, issued, session.View()) == HandleReset(env, flow, old(session.View()), request)
  {
    hide FlowResponse, ProcessFlow, ProcessAction;
    if session.column == Authenticated || !FlowGuards(env, flow, session.View()) {
      return false, false;
    }
    var engine := new AuthenticationFlow(session, flow, Authenticators(env, flow), env.forms);
    var outcome;
    ghost var call;
    if request.ResumeReset? {
      call := ProcessFlow(flow, Authenticators(env, flow), env.forms, session.View());
      outcome := engine.Process();
    } else {
      if session.current != Some(request.execution) {
        return false, false;
      }
      call := ProcessAction(flow, Authenticators(env, flow), env.forms, session.View(), request.execution,
                            request.form);
      outcome := engine.Act(request.execution, request.form);
    }
    ResponseIgnoresTrace(env, call);
    accepted, issued := RespondToFlow(session, env, outcome);
  }

  /** `required_action`. */
  method ActionStep(session: AuthenticationSession<Reset>, env: Env, provider: string, form: Form)
    returns (accepted: bool, issued: bool)
    modifies session
    ensures EffectOf(accepted, issued, session.View()) == HandleAction(env, old(session.View()), provider, form)
  {
    hide FinishFlow, ProcessRequired;
    accepted, issued := false, false;
    if !env.ready || session.column == Authenticated || session.rest.action != Some(provider) {
      return;
    }
    var progress := AnswerCurrent(session, env, provider, form);
    if progress.AskedFor? {
      accepted := true;
    } else if progress == AllDone {
      accepted := FinishLogin(session, env);
      issued := accepted;
    }
  }

  /** `action_token`: hand the consumed message to its handler and resume the flow. */
  method TokenStep(session: AuthenticationSession<Reset>, env: Env, flow: seq<Execution>, user: Id)
    returns (accepted: bool, issued: bool)
    requires IsResetFlow(flow)
    modifies session
    ensures EffectOf(accepted, issued, session.View()) == HandleToken(env, flow, old(session.View()), user)
  {
    hide FlowResponse, ProcessFlow;
    if session.rest.mails == 0 || session.rest.selected != Some(user) || !env.userEnabled {
      return false, false;
    }
    session.rest := session.rest.(proofUser := Some(user), consumed := session.rest.consumed + {user});
    session.selector := false;
    if !FlowGuards(env, flow, session.View()) {
      return false, false;
    }
    ghost var call := ProcessFlow(flow, Authenticators(env, flow), env.forms, session.View());
    var engine := new AuthenticationFlow(session, flow, Authenticators(env, flow), env.forms);
    var outcome := engine.Process();
    ResponseIgnoresTrace(env, call);
    accepted, issued := RespondToFlow(session, env, outcome);
  }

  /** `authenticate`: the login form. */
  method PasswordStep(session: AuthenticationSession<Reset>, env: Env, user: Option<Id>)
    returns (accepted: bool, issued: bool)
    modifies session
    ensures EffectOf(accepted, issued, session.View()) == HandlePassword(env, old(session.View()), user)
  {
    if !env.ready || session.column == Authenticated
       || (exists e | e in session.status :: session.status[e] == SUCCESS)
    {
      return false, false;
    }
    if user.None? {
      return true, false;
    }
    session.completed := true;
    accepted := IssueCode(session, env, user.value);
    issued := accepted;
  }
}

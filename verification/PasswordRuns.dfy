/** Whether a code that comes through the reset flow means that a password was accepted,
    over every interleaving of requests. */
module PasswordRuns {
  import opened Prelude
  import opened FlowEngine
  import opened ResetCredentials
  import opened MailGate
  import opened LoginRace
  import opened ProofRuns

  // ---------------------------------------------------------------- who replaces the password

  lemma {:induction false} TraversalKeepsPassword(env: Env, flow: seq<Execution>, l: Login<Reset>, i: nat)
    requires IsResetFlow(flow) && i <= 3
    ensures Traverse(flow, Authenticators(env, flow), l, i).login.rest.replacedFor == l.rest.replacedFor
    decreases 3 - i
  {
    hide Reported, Finished;
    if i < 3 {
      var e := flow[i];
      if Successful(l, e.id) {
        TraversalKeepsPassword(env, flow, l, i + 1);
      } else {
        var (rest, results) := Authenticators(env, flow)[e.authenticator].authenticate(l.rest);
        ReportKeepsRest(l.(rest := rest), e.id, SUCCESS);
        if results != [] { ReportKeepsRest(l.(rest := rest), e.id, results[0]); }
        TraversalKeepsPassword(env, flow, Reported(l.(rest := rest), e.id, SUCCESS), i + 1);
      }
    } else {
      FinishKeepsRest(l);
    }
  }

  lemma ReportKeepsRest(l: Login<Reset>, e: Id, s: Status)
    ensures Reported(l, e, s).rest == l.rest
  {}

  lemma FinishKeepsRest(l: Login<Reset>)
    ensures Finished(l).rest == l.rest
  {}

  lemma ContinueKeepsPassword(env: Env, flow: seq<Execution>, l: Login<Reset>, e: Id, results: seq<Status>)
    requires IsResetFlow(flow)
    ensures Continue(flow, Authenticators(env, flow), l, e, results, 0).login.rest.replacedFor == l.rest.replacedFor
  {
    hide Authenticators;
    TraversalKeepsPassword(env, flow, Reported(l, e, SUCCESS), 0);
  }

  lemma ProvidersKeepPassword(env: Env, flow: seq<Execution>, r: Reset, form: Form, i: nat)
    requires IsResetFlow(flow) && i < 3
    ensures flow[i].authenticator in Authenticators(env, flow)
    ensures var how := Authenticators(env, flow)[flow[i].authenticator];
            && how.authenticate(r).0.replacedFor == r.replacedFor
            && how.action(r, form).0.replacedFor == r.replacedFor
  {}

  lemma FlowKeepsPassword(env: Env, flow: seq<Execution>, l: Login<Reset>)
    requires IsResetFlow(flow)
    ensures ProcessFlow(flow, Authenticators(env, flow), env.forms, l).login.rest.replacedFor == l.rest.replacedFor
  {
    hide Traverse, Authenticators, IndexOf;
    TraversalKeepsPassword(env, flow, l, 0);
  }

  lemma ActionKeepsPassword(env: Env, flow: seq<Execution>, l: Login<Reset>, e: Id, form: Form)
    requires IsResetFlow(flow)
    ensures ProcessAction(flow, Authenticators(env, flow), env.forms, l, e, form).login.rest.replacedFor
            == l.rest.replacedFor
  {
    hide Traverse, Continue, IndexOf, Authenticators;
    var registry := Authenticators(env, flow);
    if form.selected.Some? && Known(flow, form.selected.value) {
      var left := l.(selector := false);
      TraversalKeepsPassword(env, flow, left, 0);
      var i := IndexOf(flow, form.selected.value);
      ProvidersKeepPassword(env, flow, left.rest, form, i);
      var (rest, results) := registry[flow[i].authenticator].authenticate(left.rest);
      ContinueKeepsPassword(env, flow, left.(rest := rest), form.selected.value, results);
    } else if Known(flow, e) {
      var i := IndexOf(flow, e);
      ProvidersKeepPassword(env, flow, l.rest, form, i);
      var (rest, results) := registry[flow[i].authenticator].action(l.rest, form);
      ContinueKeepsPassword(env, flow, l.(rest := rest), e, results);
    }
  }

  lemma ResponseKeepsPassword(env: Env, call: Call<Reset>)
    requires FlowResponse(env, call).Write?
    ensures FlowResponse(env, call).row.rest.replacedFor == call.login.rest.replacedFor
  {
    hide Actions;
    if call.outcome == Complete { AskingKeepsRest(env, QueueOf(call.login.rest)); }
  }

  /** Only a submitted action replaces the password. */
  lemma OthersKeepPassword(env: Env, flow: seq<Execution>, l: Login<Reset>, request: LoginRequest)
    requires IsResetFlow(flow) && Handle(env, flow, l, request).Write? && !request.AnswerAction?
    ensures Handle(env, flow, l, request).row.rest.replacedFor == l.rest.replacedFor
  {
    hide FlowResponse, ProcessAction, ProcessFlow, Authenticators;
    match request
    case PasswordLogin(_) =>
    case ResumeReset =>
      FlowKeepsPassword(env, flow, l);
      ResponseKeepsPassword(env, ProcessFlow(flow, Authenticators(env, flow), env.forms, l));
    case SubmitReset(e, form) =>
      ActionKeepsPassword(env, flow, l, e, form);
      ResponseKeepsPassword(env, ProcessAction(flow, Authenticators(env, flow), env.forms, l, e, form));
    case ActionToken(user) =>
      FlowKeepsPassword(env, flow, Resumed(l, user));
      ResponseKeepsPassword(env, ProcessFlow(flow, Authenticators(env, flow), env.forms, Resumed(l, user)));
  }

  // ---------------------------------------------------------------- commits of a run

  /** An attempt that commits now, if it is committed. */
  predicate Current(st: State, a: Id) { a in st.pending && st.pending[a].version == st.version }

  /** In every state of every run the commit of a submitted action either leaves the row
      and the codes as they are, because the password was rejected, or stores the password
      of the selected user and yields the code. */
  lemma CommittedAnswers(flow: seq<Execution>, st: State, actions: seq<Action>, a: Id)
    requires IsResetFlow(flow) && Initial(st)
    ensures var s := Run(flow, st, actions);
            Current(s, a) && s.pending[a].request.AnswerAction? ==>
              var next, env := Next(flow, s, Commit(a)), s.pending[a].env;
              && env.ready && UpdatePending(env, s.row.rest)
              && s.pending[a].request.provider == UPDATE_PASSWORD && s.row.rest.queue == [UPDATE_PASSWORD]
              && (env.passwordOk ==> next.row == Replaced(s.row) && next.codes == s.codes + 1)
              && (!env.passwordOk ==> next.row == s.row && next.codes == s.codes)
  {
    InitialOk(flow, st);
    InitialGate(flow, st);
    RunKeepsOk(flow, st, actions);
    RunKeepsGate(flow, st, actions);
    hide Run, Handle, RowOk, GoodEffect, Replaced, UpdatePending, OwnFormCommitted, MessageConsumed;
    var s := Run(flow, st, actions);
    if Current(s, a) && s.pending[a].request.AnswerAction? {
      var x := s.pending[a];
      AnswerReplies(x.env, flow, s.row, x.request.provider, x.request.actionForm);
    }
  }

  /** The `k`-th action commits a submitted password that passes, for user `u`, who is
      enabled and verified. */
  predicate Accepts(flow: seq<Execution>, st: State, actions: seq<Action>, k: nat, u: Id)
    requires IsResetFlow(flow) && k < |actions|
  {
    var s := Run(flow, st, actions[..k]);
    && actions[k].Commit? && Current(s, actions[k].actor)
    && s.pending[actions[k].actor].request.AnswerAction?
    && var env := s.pending[actions[k].actor].env;
       env.passwordOk && env.userEnabled && env.userVerified && s.row.rest.selected == Some(u)
  }

  lemma {:induction false} RunSnoc(flow: seq<Execution>, st: State, actions: seq<Action>, last: Action)
    requires IsResetFlow(flow)
    ensures Run(flow, st, actions + [last]) == Next(flow, Run(flow, st, actions), last)
    decreases |actions|
  {
    hide Next;
    if actions == [] {
      assert actions + [last] == [last];
    } else {
      assert (actions + [last])[1..] == actions[1..] + [last];
      RunSnoc(flow, Next(flow, st, actions[0]), actions[1..], last);
    }
  }

  /** One action more: the password of the row is the old one, or it is accepted now. */
  lemma OneStep(flow: seq<Execution>, st: State, init: seq<Action>, last: Action)
    requires IsResetFlow(flow) && Initial(st)
    ensures var s := Run(flow, st, init);
            var next := Next(flow, s, last);
            || next.row.rest.replacedFor == s.row.rest.replacedFor
            || (&& next.row.rest.replacedFor == s.row.rest.selected && s.row.rest.selected != None
                && last.Commit? && Current(s, last.actor) && s.pending[last.actor].request.AnswerAction?
                && var env := s.pending[last.actor].env; env.passwordOk && env.userEnabled && env.userVerified)
  {
    InitialOk(flow, st);
    InitialGate(flow, st);
    RunKeepsOk(flow, st, init);
    RunKeepsGate(flow, st, init);
    if last.Commit? { CommittedAnswers(flow, st, init, last.actor); }
    hide Run, Handle, RowOk, GoodEffect, OwnFormCommitted, MessageConsumed;
    var s := Run(flow, st, init);
    if last.Commit? && Current(s, last.actor) && !s.pending[last.actor].request.AnswerAction? {
      OthersKeepPassword(s.pending[last.actor].env, flow, s.row, s.pending[last.actor].request);
    }
  }

  /** A replaced password was accepted at some commit of the run. */
  lemma {:induction false} ReplacedWasAccepted(flow: seq<Execution>, st: State, actions: seq<Action>)
    requires IsResetFlow(flow) && Initial(st)
    ensures var u := Run(flow, st, actions).row.rest.replacedFor;
            u.Some? ==> exists k :: 0 <= k < |actions| && Accepts(flow, st, actions, k, u.value)
    decreases |actions|
  {
    hide Next;
    if actions != [] {
      var n := |actions| - 1;
      var init, last := actions[..n], actions[n];
      assert actions == init + [last];
      RunSnoc(flow, st, init, last);
      ReplacedWasAccepted(flow, st, init);
      OneStep(flow, st, init, last);
      hide Run;
      var u, before := Run(flow, st, actions).row.rest.replacedFor, Run(flow, st, init).row.rest.replacedFor;
      if u.Some? && u == before {
        var k :| 0 <= k < n && Accepts(flow, st, init, k, u.value);
        assert actions[..k] == init[..k];
        assert Accepts(flow, st, actions, k, u.value);
      } else if u.Some? {
        assert Accepts(flow, st, actions, n, u.value);
      }
    }
  }

  /** In every interleaving, a code that came through the reset flow follows the commit
      of a password that passed the policy, for the user of the code. */
  lemma CodeNeedsPassword(flow: seq<Execution>, st: State, actions: seq<Action>)
    requires IsResetFlow(flow) && Initial(st)
    ensures var after := Run(flow, st, actions);
            after.codes == 1 && !NothingSucceeded(after.row) ==>
              && after.row.rest.selected.Some?
              && exists k :: 0 <= k < |actions| && Accepts(flow, st, actions, k, after.row.rest.selected.value)
  {
    AtMostOneCode(flow, st, actions);
    ReplacedWasAccepted(flow, st, actions);
    hide Run, Accepts;
  }
}

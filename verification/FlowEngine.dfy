/** The authentication flow engine: a resumable traversal of ordered executions
    with a detour through the selector, for arbitrary authenticators. */
module FlowEngine {
  import opened Prelude

  datatype Status = SUCCESS | CHALLENGE | FORK | FAILURE

  datatype Execution = Execution(id: Id, authenticator: string, required: bool)

  /** What a request posts: the chosen execution of the selector, "try another
      way", or the fields of the current form. */
  datatype Form = Form(selected: Option<Id>, tryAnotherWay: bool, fields: map<string, string>)

  /** An authenticator may change the rest of the session, here `A`, and reports
      results through its context; anything but exactly one report is an error. */
  datatype Authenticator<!A> = Authenticator(
    authenticate: A -> (A, seq<Status>), action: (A, Form) -> (A, seq<Status>))

  datatype Column = AtLogin | AtExecution(id: Id) | Authenticated

  /** The authentication session as the engine sees it: the column of the current
      execution, the status of each execution, three notes, and the rest. */
  datatype Login<A> = Login(
    column: Column, status: map<Id, Status>, current: Option<Id>, selector: bool, completed: bool, rest: A)

  datatype Outcome =
    | Complete | Challenged(id: Id) | Forked(id: Id) | ErrorPage(id: Id) | Selector(id: Id) | Raised

  // ---------------------------------------------------------------- specification

  predicate Successful<A>(l: Login<A>, e: Id) { e in l.status && l.status[e] == SUCCESS }

  function Reported<A>(l: Login<A>, e: Id, s: Status): Login<A> {
    l.(column := AtExecution(e), status := l.status[e := s], current := Some(e), completed := false)
  }

  function Finished<A>(l: Login<A>): Login<A> {
    l.(completed := true, current := None, selector := false)
  }

  function OutcomeOf(e: Id, s: Status): Outcome
    requires s != SUCCESS
  {
    match s
    case FAILURE => ErrorPage(e)
    case FORK => Forked(e)
    case CHALLENGE => Challenged(e)
  }

  /** The state, the outcome, and the executions whose authenticator ran. */
  datatype Call<A> = Call(login: Login<A>, outcome: Outcome, ran: seq<Id>)

  /** The rest of the executions, from the `i`-th on. */
  function Traverse<A>(flow: seq<Execution>, registry: map<string, Authenticator<A>>, l: Login<A>, i: nat): Call<A>
    requires i <= |flow|
    decreases |flow| - i, 0
  {
    if i == |flow| then Call(Finished(l), Complete, [])
    else
      var e := flow[i];
      if Successful(l, e.id) then Traverse(flow, registry, l, i + 1)
      else if e.authenticator !in registry then Call(l, Raised, [])
      else
        var (rest, results) := registry[e.authenticator].authenticate(l.rest);
        Continue(flow, registry, l.(rest := rest), e.id, results, i + 1)
  }

  /** `process_result`, then the traversal from `i` on after a success. */
  function Continue<A>(flow: seq<Execution>, registry: map<string, Authenticator<A>>, l: Login<A>, e: Id,
                       results: seq<Status>, i: nat): Call<A>
    requires i <= |flow|
    decreases |flow| - i, 1
  {
    if |results| != 1 then Call(l, Raised, [e])
    else if results[0] != SUCCESS then Call(Reported(l, e, results[0]), OutcomeOf(e, results[0]), [e])
    else
      var next := Traverse(flow, registry, Reported(l, e, SUCCESS), i);
      next.(ran := [e] + next.ran)
  }

  predicate Known(flow: seq<Execution>, e: Id) { exists i | 0 <= i < |flow| :: flow[i].id == e }

  function IndexOf(flow: seq<Execution>, e: Id): (i: nat)
    requires Known(flow, e)
    ensures i < |flow| && flow[i].id == e
  {
    if flow[0].id == e then 0 else 1 + IndexOf(flow[1..], e)
  }

  function ProcessFlow<A>(flow: seq<Execution>, registry: map<string, Authenticator<A>>, forms: bool,
                          l: Login<A>): Call<A>
  {
    if l.selector && l.current.Some? then
      if Known(flow, l.current.value) && flow[IndexOf(flow, l.current.value)].authenticator in registry && forms
      then Call(l, Selector(l.current.value), [])
      else Call(l, Raised, [])
    else Traverse(flow, registry, l, 0)
  }

  function ProcessSelection<A>(flow: seq<Execution>, registry: map<string, Authenticator<A>>, l: Login<A>,
                               chosen: Id): Call<A>
  {
    if !Known(flow, chosen) then Call(l, Raised, [])
    else
      var left := l.(selector := false);
      if Successful(left, chosen) then Traverse(flow, registry, left, 0)
      else if flow[IndexOf(flow, chosen)].authenticator !in registry then Call(left, Raised, [])
      else
        var (rest, results) := registry[flow[IndexOf(flow, chosen)].authenticator].authenticate(left.rest);
        Continue(flow, registry, left.(rest := rest), chosen, results, 0)
  }

  function ProcessAction<A>(flow: seq<Execution>, registry: map<string, Authenticator<A>>, forms: bool,
                            l: Login<A>, e: Id, form: Form): Call<A>
  {
    if !Known(flow, e) || l.current != Some(e) then Call(l, Raised, [])
    else if form.selected.Some? then
      if !l.selector then Call(l, Raised, [])
      else ProcessSelection(flow, registry, l, form.selected.value)
    else if form.tryAnotherWay then
      var shown := l.(column := AtExecution(e), selector := true, current := Some(e));
      if flow[IndexOf(flow, e)].authenticator in registry && forms then Call(shown, Selector(e), [])
      else Call(shown, Raised, [])
    else if Successful(l, e) || flow[IndexOf(flow, e)].authenticator !in registry then Call(l, Raised, [])
    else
      var (rest, results) := registry[flow[IndexOf(flow, e)].authenticator].action(l.rest, form);
      Continue(flow, registry, l.(rest := rest), e, results, 0)
  }

  // ---------------------------------------------------------------- the engine itself

  class AuthenticationSession<A> {
    var column: Column
    var status: map<Id, Status>
    var current: Option<Id>
    var selector: bool
    var completed: bool
    var rest: A

    constructor (l: Login<A>)
      ensures View() == l
    {
      column, status, current := l.column, l.status, l.current;
      selector, completed, rest := l.selector, l.completed, l.rest;
    }

    function View(): Login<A>
      reads this
    {
      Login(column, status, current, selector, completed, rest)
    }

    /** `update_session` with the result of one execution. */
    method Report(e: Id, s: Status)
      modifies this
      ensures View() == Reported(old(View()), e, s)
    {
      column := AtExecution(e);
      status := status[e := s];
      current := Some(e);
      completed := false;
    }

    /** `on_flow_executions_successful`. */
    method Finish()
      modifies this
      ensures View() == Finished(old(View()))
    {
      completed := true;
      current := None;
      selector := false;
    }
  }

  class AuthenticationFlow<A> {
    const session: AuthenticationSession<A>
    const executions: seq<Execution>
    const registry: map<string, Authenticator<A>>
    const forms: bool
    /** The executions whose authenticator ran in this call. */
    ghost var ran: seq<Id>

    constructor (session: AuthenticationSession<A>, executions: seq<Execution>,
                 registry: map<string, Authenticator<A>>, forms: bool)
      ensures this.session == session && this.executions == executions
      ensures this.registry == registry && this.forms == forms && ran == []
    {
      this.session, this.executions, this.registry, this.forms := session, executions, registry, forms;
      ran := [];
    }

    /** `_execution`: the first execution with this identifier. */
    method Find(e: Id) returns (found: Option<nat>)
      ensures found.Some? <==> Known(executions, e)
      ensures found.Some? ==> found.value == IndexOf(executions, e)
    {
      var i := 0;
      while i < |executions|
        invariant i <= |executions| && forall k | 0 <= k < i :: executions[k].id != e
      {
        if executions[i].id == e {
          FirstIsIndex(executions, e, i);
          return Some(i);
        }
        i := i + 1;
      }
      return None;
    }

    /** `process_result`; `None` stands for a success, after which the flow goes on. */
    method ProcessResult(e: Id, results: seq<Status>) returns (outcome: Option<Outcome>)
      modifies session, this
      ensures |results| != 1 ==> outcome == Some(Raised) && session.View() == old(session.View())
      ensures |results| == 1 ==> session.View() == Reported(old(session.View()), e, results[0])
      ensures |results| == 1 && results[0] == SUCCESS ==> outcome == None
      ensures |results| == 1 && results[0] != SUCCESS ==> outcome == Some(OutcomeOf(e, results[0]))
      ensures ran == old(ran) + [e]
    {
      ran := ran + [e];
      if |results| != 1 {
        return Some(Raised);
      }
      session.Report(e, results[0]);
      return if results[0] == SUCCESS then None else Some(OutcomeOf(e, results[0]));
    }

    /** `_authenticate`. */
    method Authenticate(e: Execution) returns (outcome: Option<Outcome>)
      requires e.authenticator in registry
      modifies session, this
      ensures var (rest, results) := registry[e.authenticator].authenticate(old(session.View()).rest);
              var l := old(session.View()).(rest := rest);
              && (|results| != 1 ==> outcome == Some(Raised) && session.View() == l)
              && (|results| == 1 ==> session.View() == Reported(l, e.id, results[0]))
              && (|results| == 1 && results[0] == SUCCESS ==> outcome == None)
              && (|results| == 1 && results[0] != SUCCESS ==> outcome == Some(OutcomeOf(e.id, results[0])))
      ensures ran == old(ran) + [e.id]
    {
      var (rest, results) := registry[e.authenticator].authenticate(session.rest);
      session.rest := rest;
      outcome := ProcessResult(e.id, results);
    }

    /** `_traverse`. */
    method TraverseAll() returns (outcome: Outcome)
      modifies session, this
      ensures var call := Traverse(executions, registry, old(session.View()), 0);
              session.View() == call.login && outcome == call.outcome && ran == old(ran) + call.ran
    {
      ghost var whole := Traverse(executions, registry, session.View(), 0);
      ghost var start := ran;
      var i := 0;
      while i < |executions|
        invariant i <= |executions| && start <= ran
        invariant var rest := Traverse(executions, registry, session.View(), i);
                  whole.login == rest.login && whole.outcome == rest.outcome && start + whole.ran == ran + rest.ran
      {
        var e := executions[i];
        if !(e.id in session.status && session.status[e.id] == SUCCESS) {
          if e.authenticator !in registry {
            return Raised;
          }
          ghost var before := ran;
          ghost var rest := Traverse(executions, registry, session.View(), i);
          var result := Authenticate(e);
          if result.Some? {
            assert rest.ran == [e.id];
            return result.value;
          }
          assert rest.ran == [e.id] + Traverse(executions, registry, session.View(), i + 1).ran;
          assert before + rest.ran == ran + Traverse(executions, registry, session.View(), i + 1).ran;
        }
        i := i + 1;
      }
      session.Finish();
      assert start + whole.ran == ran;
      return Complete;
    }

    /** `process_flow`. */
    method Process() returns (outcome: Outcome)
      modifies session, this
      ensures var call := ProcessFlow(executions, registry, forms, old(session.View()));
              session.View() == call.login && outcome == call.outcome && ran == old(ran) + call.ran
    {
      if session.selector && session.current.Some? {
        var at := Find(session.current.value);
        if at.None? || executions[at.value].authenticator !in registry || !forms {
          return Raised;
        }
        return Selector(session.current.value);
      }
      outcome := TraverseAll();
    }

    /** The selector form: run the chosen execution unless it has succeeded, then traverse. */
    method Select(chosen: Id) returns (outcome: Outcome)
      requires session.selector
      modifies session, this
      ensures var call := ProcessSelection(executions, registry, old(session.View()), chosen);
              session.View() == call.login && outcome == call.outcome && ran == old(ran) + call.ran
    {
      hide IndexOf;
      var at := Find(chosen);
      if at.None? {
        return Raised;
      }
      session.selector := false;
      if !(chosen in session.status && session.status[chosen] == SUCCESS) {
        if executions[at.value].authenticator !in registry {
          return Raised;
        }
        var result := Authenticate(executions[at.value]);
        if result.Some? {
          return result.value;
        }
      }
      outcome := TraverseAll();
    }

    /** `process_action`. */
    method Act(e: Id, form: Form) returns (outcome: Outcome)
      modifies session, this
      ensures var call := ProcessAction(executions, registry, forms, old(session.View()), e, form);
              session.View() == call.login && outcome == call.outcome && ran == old(ran) + call.ran
    {
      hide IndexOf, ProcessSelection, Traverse;
      var at := Find(e);
      if at.None? || session.current != Some(e) {
        return Raised;
      }
      if form.selected.Some? {
        if !session.selector {
          return Raised;
        }
        outcome := Select(form.selected.value);
        return;
      }
      if form.tryAnotherWay {
        session.column, session.selector, session.current := AtExecution(e), true, Some(e);
        if executions[at.value].authenticator !in registry || !forms {
          return Raised;
        }
        return Selector(e);
      }
      if (e in session.status && session.status[e] == SUCCESS)
         || executions[at.value].authenticator !in registry
      {
        return Raised;
      }
      var (rest, results) := registry[executions[at.value].authenticator].action(session.rest, form);
      session.rest := rest;
      var result := ProcessResult(e, results);
      if result.Some? {
        return result.value;
      }
      outcome := TraverseAll();
    }
  }

  lemma FirstIsIndex(flow: seq<Execution>, e: Id, i: nat)
    requires i < |flow| && flow[i].id == e && forall k | 0 <= k < i :: flow[k].id != e
    ensures Known(flow, e) && IndexOf(flow, e) == i
  {
    if i > 0 { FirstIsIndex(flow[1..], e, i - 1); }
  }

  // ---------------------------------------------------------------- invariants

  predicate AllSuccessful<A>(flow: seq<Execution>, l: Login<A>) {
    forall i | 0 <= i < |flow| :: Successful(l, flow[i].id)
  }

  /** The completed note implies that every execution succeeded; a current execution
      has not succeeded and is the one in the column. */
  predicate Coherent<A>(flow: seq<Execution>, l: Login<A>) {
    && (l.completed ==> AllSuccessful(flow, l))
    && (l.current.Some? ==> Known(flow, l.current.value) && !Successful(l, l.current.value)
                            && l.column == AtExecution(l.current.value))
  }

  ghost predicate KeepsSuccess<A>(a: Login<A>, b: Login<A>) {
    forall e :: Successful(a, e) ==> Successful(b, e)
  }

  /** Nothing ran twice, and only what had not succeeded ran. */
  predicate RanOnce<A>(a: Login<A>, ran: seq<Id>) {
    && (forall i | 0 <= i < |ran| :: !Successful(a, ran[i]))
    && (forall i, j | 0 <= i < j < |ran| :: ran[i] != ran[j])
  }

  /** The facts about one call that was not refused. */
  ghost predicate GoodCall<A>(flow: seq<Execution>, a: Login<A>, call: Call<A>) {
    && KeepsSuccess(a, call.login) && RanOnce(a, call.ran)
    && (call.outcome == Complete <==> call.login.completed && call.login.current.None?)
    && (call.outcome != Complete ==> call.outcome != Raised && call.login.current == Some(call.outcome.id))
    && Coherent(flow, call.login)
  }

  lemma {:induction false} TraverseGood<A>(flow: seq<Execution>, registry: map<string, Authenticator<A>>, l: Login<A>,
                                           i: nat)
    requires i <= |flow| && forall k | 0 <= k < i :: Successful(l, flow[k].id)
    requires Traverse(flow, registry, l, i).outcome != Raised
    ensures GoodCall(flow, l, Traverse(flow, registry, l, i))
    decreases |flow| - i
  {
    if i < |flow| {
      var e := flow[i];
      if Successful(l, e.id) {
        TraverseGood(flow, registry, l, i + 1);
      } else {
        var (rest, results) := registry[e.authenticator].authenticate(l.rest);
        if results[0] == SUCCESS {
          var mid := Reported(l.(rest := rest), e.id, SUCCESS);
          TraverseGood(flow, registry, mid, i + 1);
          ContinuedGood(flow, l, l.(rest := rest), e.id, Traverse(flow, registry, mid, i + 1));
        } else {
          assert Known(flow, e.id);
        }
      }
    }
  }

  /** After a success, what the traversal guarantees from there on holds from before. */
  lemma ContinuedGood<A>(flow: seq<Execution>, a: Login<A>, b: Login<A>, e: Id, next: Call<A>)
    requires b == a.(rest := b.rest) || b == a.(rest := b.rest, selector := false)
    requires !Successful(a, e) && GoodCall(flow, Reported(b, e, SUCCESS), next)
    ensures GoodCall(flow, a, next.(ran := [e] + next.ran))
  {
    var mid := Reported(b, e, SUCCESS);
    assert Successful(mid, e);
    forall x | Successful(a, x) ensures Successful(next.login, x) {
      assert Successful(mid, x);
    }
    forall i | 0 <= i < |next.ran| ensures next.ran[i] != e && !Successful(a, next.ran[i]) {
      assert !Successful(mid, next.ran[i]);
    }
  }

  /** `Continue` from the first execution on, for an execution that had not succeeded. */
  lemma ContinueGood<A>(flow: seq<Execution>, registry: map<string, Authenticator<A>>, a: Login<A>, b: Login<A>,
                        e: Id, results: seq<Status>)
    requires b == a.(rest := b.rest) || b == a.(rest := b.rest, selector := false)
    requires Known(flow, e) && !Successful(a, e)
    requires Continue(flow, registry, b, e, results, 0).outcome != Raised
    ensures GoodCall(flow, a, Continue(flow, registry, b, e, results, 0))
  {
    if results[0] == SUCCESS {
      TraverseGood(flow, registry, Reported(b, e, SUCCESS), 0);
      ContinuedGood(flow, a, b, e, Traverse(flow, registry, Reported(b, e, SUCCESS), 0));
    }
  }

  /** For arbitrary authenticators, a call of `process_flow` that is not refused
      never loses a success, runs no authenticator twice, keeps the notes coherent,
      and completes exactly when every execution has succeeded. */
  lemma ProcessFlowGood<A>(flow: seq<Execution>, registry: map<string, Authenticator<A>>, forms: bool, l: Login<A>)
    requires Coherent(flow, l) && ProcessFlow(flow, registry, forms, l).outcome != Raised
    ensures GoodCall(flow, l, ProcessFlow(flow, registry, forms, l))
  {
    if !(l.selector && l.current.Some?) { TraverseGood(flow, registry, l, 0); }
  }

  lemma ProcessActionGood<A>(flow: seq<Execution>, registry: map<string, Authenticator<A>>, forms: bool,
                             l: Login<A>, e: Id, form: Form)
    requires Coherent(flow, l) && ProcessAction(flow, registry, forms, l, e, form).outcome != Raised
    ensures GoodCall(flow, l, ProcessAction(flow, registry, forms, l, e, form))
  {
    if form.selected.Some? {
      var left := l.(selector := false);
      var chosen := form.selected.value;
      if Successful(left, chosen) {
        TraverseGood(flow, registry, left, 0);
      } else {
        var (rest, results) := registry[flow[IndexOf(flow, chosen)].authenticator].authenticate(left.rest);
        ContinueGood(flow, registry, l, left.(rest := rest), chosen, results);
      }
    } else if !form.tryAnotherWay {
      var (rest, results) := registry[flow[IndexOf(flow, e)].authenticator].action(l.rest, form);
      ContinueGood(flow, registry, l, l.(rest := rest), e, results);
    }
  }

  lemma {:induction false} AllSuccessfulTraverses<A>(flow: seq<Execution>, registry: map<string, Authenticator<A>>,
                                                     l: Login<A>, i: nat)
    requires i <= |flow| && AllSuccessful(flow, l)
    ensures Traverse(flow, registry, l, i) == Call(Finished(l), Complete, [])
    decreases |flow| - i
  {
    if i < |flow| { AllSuccessfulTraverses(flow, registry, l, i + 1); }
  }

  /** Completion is absorbing: from a completed session `process_flow` completes
      again without running anything, and every action is refused. */
  lemma CompletionAbsorbs<A>(flow: seq<Execution>, registry: map<string, Authenticator<A>>, forms: bool,
                             l: Login<A>, e: Id, form: Form)
    requires Coherent(flow, l) && l.completed && l.current.None?
    ensures ProcessFlow(flow, registry, forms, l) == Call(Finished(l), Complete, [])
    ensures ProcessAction(flow, registry, forms, l, e, form) == Call(l, Raised, [])
  {
    AllSuccessfulTraverses(flow, registry, l, 0);
  }

  // ---------------------------------------------------------------- runs

  datatype Request = Resume | Submit(id: Id, form: Form)

  /** One request with the authenticators of its moment; a refused one rolls back. */
  function Served<A>(flow: seq<Execution>, registry: map<string, Authenticator<A>>, forms: bool,
                     l: Login<A>, request: Request): Call<A>
  {
    var call := match request
      case Resume => ProcessFlow(flow, registry, forms, l)
      case Submit(e, form) => ProcessAction(flow, registry, forms, l, e, form);
    if call.outcome == Raised then Call(l, Raised, []) else call
  }

  function Serve<A>(flow: seq<Execution>, registries: seq<map<string, Authenticator<A>>>, l: Login<A>,
                    requests: seq<Request>): Login<A>
    requires |registries| == |requests|
    decreases |requests|
  {
    if requests == [] then l
    else Serve(flow, registries[1..], Served(flow, registries[0], true, l, requests[0]).login, requests[1..])
  }

  /** Over any run, whatever the authenticators do at each request, the notes stay
      coherent and no success is ever lost. */
  lemma {:induction false} RunsStayCoherent<A>(flow: seq<Execution>, registries: seq<map<string, Authenticator<A>>>,
                                               l: Login<A>, requests: seq<Request>)
    requires |registries| == |requests| && Coherent(flow, l)
    ensures Coherent(flow, Serve(flow, registries, l, requests))
    ensures KeepsSuccess(l, Serve(flow, registries, l, requests))
    decreases |requests|
  {
    if requests != [] {
      var call := Served(flow, registries[0], true, l, requests[0]);
      if call.outcome != Raised {
        match requests[0]
        case Resume => ProcessFlowGood(flow, registries[0], true, l);
        case Submit(e, form) => ProcessActionGood(flow, registries[0], true, l, e, form);
      }
      RunsStayCoherent(flow, registries[1..], call.login, requests[1..]);
    }
  }
}

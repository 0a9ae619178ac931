/** In which order the engine runs executions, and what it leaves alone. */
module FlowOrder {
  import opened Prelude
  import opened FlowEngine

  /** Executions are rows, so no identifier is listed twice. */
  predicate DistinctIds(flow: seq<Execution>) {
    forall i, j | 0 <= i < j < |flow| :: flow[i].id != flow[j].id
  }

  /** What is left to do from the `i`-th execution on, in order of the listing. */
  function Todo(flow: seq<Execution>, status: map<Id, Status>, i: nat): seq<Id>
    requires i <= |flow|
    decreases |flow| - i
  {
    if i == |flow| then []
    else
      var e := flow[i].id;
      (if e in status && status[e] == SUCCESS then [] else [e]) + Todo(flow, status, i + 1)
  }

  lemma {:induction false} OthersLeft(flow: seq<Execution>, a: map<Id, Status>, e: Id, s: Status, i: nat)
    requires i <= |flow| && forall k | i <= k < |flow| :: flow[k].id != e
    ensures Todo(flow, a[e := s], i) == Todo(flow, a, i)
    decreases |flow| - i
  {
    if i < |flow| { OthersLeft(flow, a, e, s, i + 1); }
  }

  /** The executions in `ran` succeeded, the last one aside if the flow stopped at it;
      every other status is what it was. */
  ghost predicate Marks<A>(a: Login<A>, call: Call<A>) {
    && (forall e :: e !in call.ran ==>
          (e in call.login.status <==> e in a.status)
          && (e in a.status ==> call.login.status[e] == a.status[e]))
    && (forall i | 0 <= i < |call.ran| - 1 :: Successful(call.login, call.ran[i]))
    && (if call.outcome == Complete then forall e | e in call.ran :: Successful(call.login, e)
        else call.ran != [] && call.outcome != Raised && call.outcome.id == call.ran[|call.ran| - 1]
             && !Successful(call.login, call.outcome.id))
  }

  /** A traversal runs what is left to do in order, up to the first execution that does
      not succeed, and all of it exactly if it completes. */
  lemma {:induction false} TraversalInOrder<A>(flow: seq<Execution>, registry: map<string, Authenticator<A>>,
                                               l: Login<A>, i: nat)
    requires i <= |flow| && DistinctIds(flow) && Traverse(flow, registry, l, i).outcome != Raised
    ensures var call := Traverse(flow, registry, l, i);
            && Marks(l, call) && call.ran <= Todo(flow, l.status, i)
            && (call.outcome == Complete ==> call.ran == Todo(flow, l.status, i))
    decreases |flow| - i
  {
    hide Marks, DistinctIds, Reported;
    if i < |flow| {
      var e := flow[i];
      if Successful(l, e.id) {
        TraversalInOrder(flow, registry, l, i + 1);
      } else {
        var (rest, results) := registry[e.authenticator].authenticate(l.rest);
        StoppedMarks(l, rest, e.id, results[0]);
        if results[0] == SUCCESS {
          var mid := Reported(l.(rest := rest), e.id, SUCCESS);
          TraversalInOrder(flow, registry, mid, i + 1);
          RestLeft(flow, l.status, i);
          StaysAside(flow, mid.status, e.id, i + 1);
          FirstMarked(l, mid, e.id, Traverse(flow, registry, mid, i + 1));
        }
      }
    } else {
      FinishedMarks(l);
    }
  }

  lemma FinishedMarks<A>(l: Login<A>)
    ensures Marks(l, Call(Finished(l), Complete, []))
  {}

  /** One result, recorded. */
  lemma StoppedMarks<A>(l: Login<A>, rest: A, e: Id, s: Status)
    ensures Reported(l.(rest := rest), e, s).status == l.status[e := s]
    ensures s != SUCCESS ==> Marks(l, Call(Reported(l.(rest := rest), e, s), OutcomeOf(e, s), [e]))
  {}

  lemma RestLeft(flow: seq<Execution>, status: map<Id, Status>, i: nat)
    requires DistinctIds(flow) && i < |flow|
    ensures Todo(flow, status[flow[i].id := SUCCESS], i + 1) == Todo(flow, status, i + 1)
  {
    OthersLeft(flow, status, flow[i].id, SUCCESS, i + 1);
  }

  /** What has succeeded is not left to do. */
  lemma {:induction false} StaysAside(flow: seq<Execution>, status: map<Id, Status>, e: Id, i: nat)
    requires i <= |flow| && e in status && status[e] == SUCCESS
    ensures e !in Todo(flow, status, i)
    decreases |flow| - i
  {
    if i < |flow| { StaysAside(flow, status, e, i + 1); }
  }

  /** A first success, then a call from the state after it. */
  lemma FirstMarked<A>(a: Login<A>, mid: Login<A>, e: Id, next: Call<A>)
    requires mid.status == a.status[e := SUCCESS] && Marks(mid, next) && e !in next.ran
    ensures Marks(a, next.(ran := [e] + next.ran))
  {
    var call := next.(ran := [e] + next.ran);
    assert Successful(next.login, e);
    forall i | 0 <= i < |call.ran| - 1 ensures Successful(call.login, call.ran[i]) {
      if i > 0 { assert call.ran[i] == next.ran[i - 1]; }
    }
  }

  /** The execution that a form addresses: the chosen one, or the current one. */
  function Target(e: Id, form: Form): Id {
    if form.selected.Some? then form.selected.value else e
  }

  /** A form runs the execution it addresses first, unless that has already succeeded,
      and only after its success whatever else is left, in order; "try another way"
      runs nothing and changes no status. */
  lemma ActionsInOrder<A>(flow: seq<Execution>, registry: map<string, Authenticator<A>>, forms: bool,
                          l: Login<A>, e: Id, form: Form)
    requires DistinctIds(flow) && ProcessAction(flow, registry, forms, l, e, form).outcome != Raised
    ensures var call, x := ProcessAction(flow, registry, forms, l, e, form), Target(e, form);
            if form.selected.None? && form.tryAnotherWay
            then call.ran == [] && call.login.status == l.status && call.outcome == Selector(e)
            else
              && Marks(l, call)
              && (if Successful(l, x) then call.ran <= Todo(flow, l.status, 0)
                  else call.ran != [] && call.ran[0] == x && call.ran[1..] <= Todo(flow, l.status[x := SUCCESS], 0))
  {
    hide Marks;
    if form.selected.Some? {
      var left := l.(selector := false);
      if Successful(l, form.selected.value) {
        TraversalInOrder(flow, registry, left, 0);
        SameStatusMarks(l, left, Traverse(flow, registry, left, 0));
      } else {
        var (rest, results) := registry[flow[IndexOf(flow, form.selected.value)].authenticator].authenticate(left.rest);
        ContinueInOrder(flow, registry, l, left.(rest := rest), form.selected.value, results);
      }
    } else if !form.tryAnotherWay {
      var (rest, results) := registry[flow[IndexOf(flow, e)].authenticator].action(l.rest, form);
      ContinueInOrder(flow, registry, l, l.(rest := rest), e, results);
    }
  }

  lemma SameStatusMarks<A>(a: Login<A>, b: Login<A>, call: Call<A>)
    requires a.status == b.status && Marks(b, call)
    ensures Marks(a, call)
  {}

  lemma ContinueInOrder<A>(flow: seq<Execution>, registry: map<string, Authenticator<A>>, a: Login<A>, b: Login<A>,
                           e: Id, results: seq<Status>)
    requires DistinctIds(flow) && a.status == b.status
    requires Continue(flow, registry, b, e, results, 0).outcome != Raised
    ensures var call := Continue(flow, registry, b, e, results, 0);
            && Marks(a, call) && call.ran != [] && call.ran[0] == e
            && call.ran[1..] <= Todo(flow, a.status[e := SUCCESS], 0)
  {
    if results[0] == SUCCESS {
      var mid := Reported(b, e, SUCCESS);
      TraversalInOrder(flow, registry, mid, 0);
      StaysAside(flow, mid.status, e, 0);
      FirstMarked(a, mid, e, Traverse(flow, registry, mid, 0));
    }
  }

  // ---------------------------------------------------------------- what runs nothing

  /** A flow that stands at the selector shows it again, if the execution and a form for
      it exist, and changes nothing. */
  lemma SelectorShown<A>(flow: seq<Execution>, registry: map<string, Authenticator<A>>, forms: bool, l: Login<A>)
    requires l.selector && l.current.Some?
    ensures var call := ProcessFlow(flow, registry, forms, l); var e := l.current.value;
            && call.login == l && call.ran == []
            && call.outcome == if Known(flow, e) && flow[IndexOf(flow, e)].authenticator in registry && forms
                               then Selector(e) else Raised
  {
    hide IndexOf;
  }

  /** What a form cannot do: address an execution that is unknown or not current, choose
      without the selector or what is unknown or has no authenticator, or post to an
      execution that has succeeded. All of that is refused before anything is written.
      "Try another way" opens the selector at the current execution, if it can be shown. */
  lemma ActionsRefused<A>(flow: seq<Execution>, registry: map<string, Authenticator<A>>, forms: bool, l: Login<A>,
                          e: Id, form: Form)
    ensures
      var call := ProcessAction(flow, registry, forms, l, e, form);
      var choice := form.selected;
      if !Known(flow, e) || l.current != Some(e) then call == Call(l, Raised, [])
      else if choice.Some? && (!l.selector || !Known(flow, choice.value)) then call == Call(l, Raised, [])
      else if choice.Some? && !Successful(l, choice.value)
              && flow[IndexOf(flow, choice.value)].authenticator !in registry
      then call.outcome == Raised && call.ran == [] && call.login.status == l.status && call.login.rest == l.rest
      else if choice.None? && form.tryAnotherWay then
        && call.ran == [] && call.login == Login(AtExecution(e), l.status, Some(e), true, l.completed, l.rest)
        && call.outcome == if flow[IndexOf(flow, e)].authenticator in registry && forms then Selector(e) else Raised
      else if choice.None? && (Successful(l, e) || flow[IndexOf(flow, e)].authenticator !in registry)
      then call == Call(l, Raised, [])
      else choice.None? ==> call.ran != [] && call.ran[0] == e
  {
    hide IndexOf, Traverse;
  }

  /** A completed traversal leaves no note of a current execution and no selector. */
  lemma {:induction false} CompletionClears<A>(flow: seq<Execution>, registry: map<string, Authenticator<A>>,
                                               l: Login<A>, i: nat)
    requires i <= |flow|
    ensures var call := Traverse(flow, registry, l, i);
            call.outcome == Complete ==>
              call.login.completed && call.login.current == None && !call.login.selector
    decreases |flow| - i
  {
    if i < |flow| {
      var e := flow[i];
      if Successful(l, e.id) {
        CompletionClears(flow, registry, l, i + 1);
      } else if e.authenticator in registry {
        var (rest, results) := registry[e.authenticator].authenticate(l.rest);
        CompletionClears(flow, registry, Reported(l.(rest := rest), e.id, SUCCESS), i + 1);
      }
    }
  }
}

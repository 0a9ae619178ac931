/** The reset conversation as a script: what each request makes of a sound row, case by
    case. The engine, the queue of required actions and the three authenticators, put
    together, refine it. */
module ResetScript {
  import opened Prelude
  import opened FlowEngine
  import opened RequiredActions
  import opened ResetCredentials

  // ---------------------------------------------------------------- the script

  function Marked(l: Login<Reset>, e: Id, s: Status): Login<Reset> {
    Login(AtExecution(e), l.status[e := s], Some(e), l.selector, false, l.rest)
  }

  /** All three executions have succeeded: first the password, if its update is still
      queued, then the code. */
  function Done(env: Env, l: Login<Reset>): Effect {
    var done := Login(l.column, l.status, None, false, true, l.rest);
    if l.rest.queue != [] then
      if UpdatePending(env, l.rest) && env.forms
      then Write(done.(rest := l.rest.(action := Some(UPDATE_PASSWORD))), false)
      else Refuse
    else if l.rest.selected != None && env.userEnabled && env.open && l.column != Authenticated
    then Write(done.(column := Authenticated, completed := false), true)
    else Refuse
  }

  /** The e-mail execution: with proof it succeeds. Without, one message is sent to an
      enabled user with an address, once a user, and the conversation waits. */
  datatype Gate = Passed | Waits(rest: Reset) | Broken

  function AtGate(env: Env, e: Id, r: Reset): Gate {
    match r.selected
    case None => Waits(r)
    case Some(u) =>
      if !env.userEnabled then Waits(r)
      else if r.proofUser == Some(u) && u in r.consumed then Passed
      else if !env.userHasEmail || r.delivery == Some((e, u)) then Waits(r)
      else if !env.mayMail then Broken
      else Waits(Reset(r.selected, r.proofUser, Some((e, u)), r.pendingNote, r.allowed, r.queue, r.action, r.mails + 1,
                       r.consumed, r.replacedFor))
  }

  /** The last execution schedules the update of the password. */
  function Scheduled(env: Env, r: Reset): Reset {
    Reset(r.selected, r.proofUser, r.delivery, r.pendingNote || !env.typedMode, r.allowed || env.typedMode,
          [UPDATE_PASSWORD], r.action, r.mails, r.consumed, r.replacedFor)
  }

  /** Run the `k`-th execution; after a success go on with what is left, in order. */
  function Enter(env: Env, flow: seq<Execution>, l: Login<Reset>, k: nat): Effect
    requires IsResetFlow(flow) && k < 3
    decreases 3 - Successes(flow, l), 1
    requires !Successful(l, flow[k].id)
  {
    match k
    case 0 => if env.forms then Write(Marked(l, flow[0].id, CHALLENGE), false) else Refuse
    case 1 =>
      (match AtGate(env, flow[1].id, l.rest)
       case Passed => GoOn(env, flow, Marked(l, flow[1].id, SUCCESS))
       case Waits(rest) => Write(Marked(l.(rest := rest), flow[1].id, FORK), false)
       case Broken => Refuse)
    case _ =>
      if l.rest.selected != None && env.userEnabled
      then GoOn(env, flow, Marked(l.(rest := Scheduled(env, l.rest)), flow[2].id, SUCCESS))
      else Refuse
  }

  /** Whatever execution has not succeeded yet comes next. */
  function GoOn(env: Env, flow: seq<Execution>, l: Login<Reset>): Effect
    requires IsResetFlow(flow)
    decreases 3 - Successes(flow, l), 2
  {
    if !Successful(l, flow[0].id) then Enter(env, flow, l, 0)
    else if !Successful(l, flow[1].id) then Enter(env, flow, l, 1)
    else if !Successful(l, flow[2].id) then Enter(env, flow, l, 2)
    else Done(env, l)
  }

  function Successes(flow: seq<Execution>, l: Login<Reset>): (n: nat)
    requires IsResetFlow(flow)
    ensures n <= 3
  {
    (if Successful(l, flow[0].id) then 1 else 0) + (if Successful(l, flow[1].id) then 1 else 0)
    + (if Successful(l, flow[2].id) then 1 else 0)
  }

  /** The form of the `k`-th execution. The first one names the user, and whatever was
      pending or proven for another user is forgotten; that of the e-mail execution stands
      for the message. */
  function Posted(env: Env, flow: seq<Execution>, l: Login<Reset>, k: nat): Effect
    requires IsResetFlow(flow) && k < 3 && !Successful(l, flow[k].id)
  {
    match k
    case 0 =>
      var r := l.rest;
      var chosen := Reset(env.found, None, None, false, false, r.queue, r.action, r.mails, r.consumed, r.replacedFor);
      GoOn(env, flow, Marked(l.(rest := chosen), flow[0].id, SUCCESS))
    case 1 =>
      if l.rest.selected != None && env.userEnabled then GoOn(env, flow, Marked(l, flow[1].id, SUCCESS)) else Refuse
    case _ => Enter(env, flow, l, 2)
  }

  function Place(flow: seq<Execution>, e: Id): Option<nat>
    requires IsResetFlow(flow)
  {
    if e == flow[0].id then Some(0) else if e == flow[1].id then Some(1) else if e == flow[2].id then Some(2) else None
  }

  /** Everything around the row is in order, and the selected user is enabled. */
  predicate InOrder(env: Env, flow: seq<Execution>, l: Login<Reset>)
    requires IsResetFlow(flow)
  {
    && env.ready && (l.rest.selected == None || env.userEnabled)
    && (l.current == None || Place(flow, l.current.value) != None)
  }

  function Script(env: Env, flow: seq<Execution>, l: Login<Reset>, request: LoginRequest): Effect
    requires IsResetFlow(flow)
  {
    match request
    case PasswordLogin(user) =>
      if !env.ready || l.column == Authenticated || !NothingSucceeded(l) then Refuse
      else (match user
            case None => Write(l, false)
            case Some(u) =>
              if env.open
              then Write(Login(Authenticated, l.status, None, false, false, l.rest.(selected := Some(u))), true)
              else Refuse)
    case ResumeReset =>
      if l.column == Authenticated || !InOrder(env, flow, l) then Refuse
      else if l.selector && l.current != None then (if env.forms then Write(l, false) else Refuse)
      else GoOn(env, flow, l)
    case SubmitReset(e, form) =>
      if l.column == Authenticated || !InOrder(env, flow, l) || l.current != Some(e) then Refuse
      else if form.selected != None then
        var chosen := Place(flow, form.selected.value);
        if !l.selector || chosen == None then Refuse
        else
          var left := l.(selector := false);
          if Successful(left, form.selected.value) then GoOn(env, flow, left)
          else Enter(env, flow, left, chosen.value)
      else if form.tryAnotherWay then
        if env.forms then Write(l.(column := AtExecution(e), selector := true), false) else Refuse
      else if Successful(l, e) then Refuse
      else Posted(env, flow, l, Place(flow, e).value)
    case AnswerAction(provider, _) =>
      if !(env.ready && l.column != Authenticated && provider == UPDATE_PASSWORD && l.rest.action == Some(provider)
           && l.rest.queue == [provider] && UpdatePending(env, l.rest))
      then Refuse
      else if !env.passwordOk then (if env.forms then Write(l, false) else Refuse)
      else if env.open && l.completed then Write(Replaced(l), true)
      else Refuse
    case ActionToken(user) =>
      if l.rest.mails == 0 || l.rest.selected != Some(user) || !env.userEnabled then Refuse
      else
        var r := l.rest;
        var resumed := l.(selector := false,
                          rest := Reset(r.selected, Some(user), r.delivery, r.pendingNote, r.allowed, r.queue, r.action,
                                        r.mails, r.consumed + {user}, r.replacedFor));
        if InOrder(env, flow, resumed) then GoOn(env, flow, resumed) else Refuse
  }

  // ---------------------------------------------------------------- the engine refines it

  /** Nothing is queued but the update of the password. */
  predicate QueueFits(l: Login<Reset>) { l.rest.queue == [] || l.rest.queue == [UPDATE_PASSWORD] }

  lemma AskedIs(env: Env, q: Queue<Reset>)
    requires q.pending == [UPDATE_PASSWORD]
    ensures Challenge(Actions(env), q) ==
      (q.(current := Some(UPDATE_PASSWORD)),
       if UpdatePending(env, q.rest) && env.forms then AskedFor(UPDATE_PASSWORD) else FailedAt(UPDATE_PASSWORD))
  {}

  lemma DoneIs(env: Env, l: Login<Reset>)
    requires QueueFits(l)
    ensures FlowResponse(env, Call(Finished(l), Complete, [])) == Done(env, l)
  {
    if l.rest.queue != [] { AskedIs(env, QueueOf(Finished(l).rest)); }
    hide Challenge;
  }

  /** What the three authenticators do when asked. */
  lemma AskingIs(env: Env, flow: seq<Execution>, l: Login<Reset>, k: nat)
    requires IsResetFlow(flow) && k < 3 && QueueFits(l)
    ensures flow[k].authenticator in Authenticators(env, flow)
    ensures var (rest, results) := Authenticators(env, flow)[flow[k].authenticator].authenticate(l.rest);
            match k
            case 0 => rest == l.rest && results == [if env.forms then CHALLENGE else FAILURE]
            case 1 =>
              (match AtGate(env, flow[1].id, l.rest)
               case Passed => rest == l.rest && results == [SUCCESS]
               case Waits(r) => rest == r && results == [FORK]
               case Broken => results == [])
            case _ =>
              if l.rest.selected != None && env.userEnabled
              then rest == Scheduled(env, l.rest) && results == [SUCCESS]
              else results == [FAILURE]
  {}

  lemma PostingIs(env: Env, flow: seq<Execution>, l: Login<Reset>, form: Form, k: nat)
    requires IsResetFlow(flow) && k < 3 && QueueFits(l)
    ensures flow[k].authenticator in Authenticators(env, flow)
    ensures var (rest, results) := Authenticators(env, flow)[flow[k].authenticator].action(l.rest, form);
            var r := l.rest;
            match k
            case 0 =>
              && results == [SUCCESS]
              && rest == Reset(env.found, None, None, false, false, r.queue, r.action, r.mails, r.consumed,
                               r.replacedFor)
            case 1 => rest == r && results == [if r.selected != None && env.userEnabled then SUCCESS else FAILURE]
            case _ =>
              if r.selected != None && env.userEnabled
              then rest == Scheduled(env, r) && results == [SUCCESS]
              else results == [FAILURE]
  {}

  lemma MarkedIs(l: Login<Reset>, e: Id, s: Status)
    ensures Reported(l, e, s) == Marked(l, e, s)
    ensures forall x :: Successful(Marked(l, e, s), x) <==> if x == e then s == SUCCESS else Successful(l, x)
  {}

  lemma Answers(env: Env, call: Call<Reset>, ran: seq<Id>)
    ensures FlowResponse(env, call.(ran := ran)) == FlowResponse(env, call)
    ensures call.outcome == Raised ==> FlowResponse(env, call) == Refuse
    ensures call.outcome.ErrorPage? ==> FlowResponse(env, call) == Refuse
    ensures call.outcome.Challenged? || call.outcome.Forked? || call.outcome.Selector? ==>
      FlowResponse(env, call) == Write(call.login, false)
  {
    hide Challenge;
  }

  /** A traversal from the `i`-th execution on, all before it having succeeded. */
  lemma {:induction false} TraversalIs(env: Env, flow: seq<Execution>, l: Login<Reset>, i: nat)
    requires IsResetFlow(flow) && i <= 3 && QueueFits(l)
    requires forall j | 0 <= j < i :: Successful(l, flow[j].id)
    ensures FlowResponse(env, Traverse(flow, Authenticators(env, flow), l, i)) == GoOn(env, flow, l)
    decreases 3 - Successes(flow, l), 3 - i
  {
    hide Authenticators, FlowResponse, Done, Scheduled, AtGate, Marked, Reported, Successful;
    var registry := Authenticators(env, flow);
    if i == 3 {
      DoneIs(env, l);
    } else if Successful(l, flow[i].id) {
      TraversalIs(env, flow, l, i + 1);
    } else {
      AskingIs(env, flow, l, i);
      var (rest, results) := registry[flow[i].authenticator].authenticate(l.rest);
      SameSuccesses(flow, l, rest);
      ScheduledFits(env, l);
      ResultIs(env, flow, l.(rest := rest), i, results, i + 1);
      assert l.(rest := l.rest) == l;
    }
  }

  lemma ScheduledFits(env: Env, l: Login<Reset>)
    ensures QueueFits(l.(rest := Scheduled(env, l.rest)))
  {}

  lemma SameSuccesses(flow: seq<Execution>, l: Login<Reset>, rest: Reset)
    requires IsResetFlow(flow)
    ensures forall e :: Successful(l.(rest := rest), e) <==> Successful(l, e)
    ensures Successes(flow, l.(rest := rest)) == Successes(flow, l)
  {}

  /** One result of the `k`-th execution; a success goes on from `i`. */
  lemma {:induction false} ResultIs(env: Env, flow: seq<Execution>, l: Login<Reset>, k: nat, results: seq<Status>,
                                    i: nat)
    requires IsResetFlow(flow) && k < 3 && i <= k + 1 && !Successful(l, flow[k].id)
    requires results == [SUCCESS] ==> QueueFits(l)
    requires forall j | 0 <= j < i && j != k :: Successful(l, flow[j].id)
    ensures FlowResponse(env, Continue(flow, Authenticators(env, flow), l, flow[k].id, results, i)) ==
      if |results| != 1 then Refuse
      else match results[0]
           case SUCCESS => GoOn(env, flow, Marked(l, flow[k].id, SUCCESS))
           case FAILURE => Refuse
           case s => Write(Marked(l, flow[k].id, s), false)
    decreases 3 - Successes(flow, l), 3 - i, 0
  {
    hide Authenticators, FlowResponse, GoOn, Traverse, Marked, Reported;
    var registry := Authenticators(env, flow);
    var call := Continue(flow, registry, l, flow[k].id, results, i);
    Answers(env, call, []);
    if |results| == 1 {
      MarkedIs(l, flow[k].id, results[0]);
      if results[0] == SUCCESS {
        var next := Marked(l, flow[k].id, SUCCESS);
        MarkedFits(l, flow[k].id);
        OneMoreSuccess(flow, l, k);
        TraversalIs(env, flow, next, i);
        Answers(env, Traverse(flow, registry, next, i), call.ran);
      }
    }
  }

  lemma MarkedFits(l: Login<Reset>, e: Id)
    ensures QueueFits(Marked(l, e, SUCCESS)) <==> QueueFits(l)
  {}

  lemma OneMoreSuccess(flow: seq<Execution>, l: Login<Reset>, k: nat)
    requires IsResetFlow(flow) && k < 3 && !Successful(l, flow[k].id)
    ensures Successes(flow, Marked(l, flow[k].id, SUCCESS)) == Successes(flow, l) + 1
  {}

  lemma PlaceIs(flow: seq<Execution>, e: Id)
    requires IsResetFlow(flow)
    ensures Place(flow, e) != None <==> Known(flow, e)
    ensures Known(flow, e) ==> Place(flow, e) == Some(IndexOf(flow, e)) && flow[IndexOf(flow, e)].id == e
  {
    if Place(flow, e) != None { assert flow[Place(flow, e).value].id == e; }
    hide IndexOf;
  }

  /** A form of the `k`-th execution, or its choice in the selector. */
  lemma EnterIs(env: Env, flow: seq<Execution>, l: Login<Reset>, k: nat)
    requires IsResetFlow(flow) && k < 3 && QueueFits(l) && !Successful(l, flow[k].id)
    ensures flow[k].authenticator in Authenticators(env, flow)
    ensures var (rest, results) := Authenticators(env, flow)[flow[k].authenticator].authenticate(l.rest);
            FlowResponse(env, Continue(flow, Authenticators(env, flow), l.(rest := rest), flow[k].id, results, 0))
            == Enter(env, flow, l, k)
  {
    hide Authenticators, FlowResponse, Done, Scheduled, AtGate, Marked, Reported, Successful, Continue, GoOn;
    AskingIs(env, flow, l, k);
    var (rest, results) := Authenticators(env, flow)[flow[k].authenticator].authenticate(l.rest);
    SameSuccesses(flow, l, rest);
    ScheduledFits(env, l);
    ResultIs(env, flow, l.(rest := rest), k, results, 0);
    assert l.(rest := l.rest) == l;
  }

  lemma PostedIs(env: Env, flow: seq<Execution>, l: Login<Reset>, form: Form, k: nat)
    requires IsResetFlow(flow) && k < 3 && QueueFits(l) && !Successful(l, flow[k].id)
    ensures flow[k].authenticator in Authenticators(env, flow)
    ensures var (rest, results) := Authenticators(env, flow)[flow[k].authenticator].action(l.rest, form);
            FlowResponse(env, Continue(flow, Authenticators(env, flow), l.(rest := rest), flow[k].id, results, 0))
            == Posted(env, flow, l, k)
  {
    hide Authenticators, FlowResponse, Done, Scheduled, AtGate, Marked, Reported, Successful, Continue, GoOn;
    PostingIs(env, flow, l, form, k);
    var (rest, results) := Authenticators(env, flow)[flow[k].authenticator].action(l.rest, form);
    SameSuccesses(flow, l, rest);
    ScheduledFits(env, l);
    ResultIs(env, flow, l.(rest := rest), k, results, 0);
    assert l.(rest := l.rest) == l;
  }

  /** Whatever is shown or asked next when the flow is entered. */
  lemma FlowIs(env: Env, flow: seq<Execution>, l: Login<Reset>)
    requires IsResetFlow(flow) && QueueFits(l) && (l.current == None || Place(flow, l.current.value) != None)
    ensures FlowResponse(env, ProcessFlow(flow, Authenticators(env, flow), env.forms, l)) ==
      if l.selector && l.current != None then (if env.forms then Write(l, false) else Refuse) else GoOn(env, flow, l)
  {
    hide Traverse, Challenge, IndexOf, GoOn;
    TraversalIs(env, flow, l, 0);
    if l.current.Some? { PlaceIs(flow, l.current.value); }
  }

  lemma ActionIs(env: Env, flow: seq<Execution>, l: Login<Reset>, e: Id, form: Form)
    requires IsResetFlow(flow) && QueueFits(l) && l.current == Some(e) && Place(flow, e) != None
    ensures FlowResponse(env, ProcessAction(flow, Authenticators(env, flow), env.forms, l, e, form)) ==
      if form.selected != None then
        var chosen := Place(flow, form.selected.value);
        if !l.selector || chosen == None then Refuse
        else
          var left := l.(selector := false);
          if Successful(left, form.selected.value) then GoOn(env, flow, left)
          else Enter(env, flow, left, chosen.value)
      else if form.tryAnotherWay then
        if env.forms then Write(l.(column := AtExecution(e), selector := true), false) else Refuse
      else if Successful(l, e) then Refuse
      else Posted(env, flow, l, Place(flow, e).value)
  {
    hide Traverse, Continue, Challenge, IndexOf, GoOn, Enter, Posted, Successful, Authenticators;
    PlaceIs(flow, e);
    ProviderThere(env, flow, IndexOf(flow, e));
    if form.selected.Some? {
      var x, left := form.selected.value, l.(selector := false);
      PlaceIs(flow, x);
      if Known(flow, x) {
        ProviderThere(env, flow, IndexOf(flow, x));
        TraversalIs(env, flow, left, 0);
        if !Successful(left, x) { EnterIs(env, flow, left, IndexOf(flow, x)); }
      }
    } else if !form.tryAnotherWay && !Successful(l, e) {
      PostedIs(env, flow, l, form, IndexOf(flow, e));
    }
  }

  lemma ProviderThere(env: Env, flow: seq<Execution>, k: nat)
    requires IsResetFlow(flow) && k < 3
    ensures flow[k].authenticator in Authenticators(env, flow)
  {}

  lemma SoundQueue(flow: seq<Execution>, l: Login<Reset>)
    requires IsResetFlow(flow) && RowOk(flow, l)
    ensures QueueFits(l)
    ensures NothingSucceeded(l) && l.column != Authenticated ==> l.rest.queue == [] && l.rest.selected == None
    ensures l.column == Authenticated && l.rest.mails > 0 ==> AllSuccessful(flow, l) && l.rest.queue == []
  {
    if NothingSucceeded(l) && l.column != Authenticated {
      assert !Successful(l, flow[0].id) && !Successful(l, flow[2].id);
    }
  }

  lemma GuardsAre(env: Env, flow: seq<Execution>, l: Login<Reset>)
    requires IsResetFlow(flow)
    ensures FlowGuards(env, flow, l) <==> InOrder(env, flow, l)
  {
    hide IndexOf;
    if l.current.Some? { PlaceIs(flow, l.current.value); }
  }

  /** On every sound row every request does exactly what the script says. */
  lemma ScriptRefined(env: Env, flow: seq<Execution>, l: Login<Reset>, request: LoginRequest)
    requires IsResetFlow(flow) && RowOk(flow, l)
    ensures Handle(env, flow, l, request) == Script(env, flow, l, request)
  {
    SoundQueue(flow, l);
    match request
    case PasswordLogin(user) => PasswordIs(env, flow, l, user);
    case ResumeReset =>
      hide ProcessFlow, FlowResponse, GoOn, InOrder, FlowGuards, Authenticators, RowOk;
      GuardsAre(env, flow, l);
      if InOrder(env, flow, l) { FlowThere(env, flow, l); }
    case SubmitReset(e, form) =>
      hide ProcessAction, FlowResponse, GoOn, Enter, Posted, InOrder, FlowGuards, Authenticators, RowOk;
      GuardsAre(env, flow, l);
      if InOrder(env, flow, l) && l.current == Some(e) { ActionThere(env, flow, l, e, form); }
    case AnswerAction(provider, form) =>
      AnswerReplies(env, flow, l, provider, form);
      hide HandleAction, RowOk;
    case ActionToken(user) =>
      hide ProcessFlow, FlowResponse, GoOn, InOrder, FlowGuards, Authenticators, RowOk;
      GuardsAre(env, flow, Resumed(l, user));
      if InOrder(env, flow, Resumed(l, user)) { FlowThere(env, flow, Resumed(l, user)); }
  }

  lemma FlowThere(env: Env, flow: seq<Execution>, l: Login<Reset>)
    requires IsResetFlow(flow) && QueueFits(l) && InOrder(env, flow, l)
    ensures FlowResponse(env, ProcessFlow(flow, Authenticators(env, flow), env.forms, l)) ==
      if l.selector && l.current != None then (if env.forms then Write(l, false) else Refuse) else GoOn(env, flow, l)
  {
    FlowIs(env, flow, l);
    hide ProcessFlow, FlowResponse, GoOn;
  }

  lemma ActionThere(env: Env, flow: seq<Execution>, l: Login<Reset>, e: Id, form: Form)
    requires IsResetFlow(flow) && QueueFits(l) && InOrder(env, flow, l) && l.current == Some(e)
    ensures Place(flow, e) != None
    ensures FlowResponse(env, ProcessAction(flow, Authenticators(env, flow), env.forms, l, e, form)) ==
      if form.selected != None then
        var chosen := Place(flow, form.selected.value);
        if !l.selector || chosen == None then Refuse
        else
          var left := l.(selector := false);
          if Successful(left, form.selected.value) then GoOn(env, flow, left)
          else Enter(env, flow, left, chosen.value)
      else if form.tryAnotherWay then
        if env.forms then Write(l.(column := AtExecution(e), selector := true), false) else Refuse
      else if Successful(l, e) then Refuse
      else Posted(env, flow, l, Place(flow, e).value)
  {
    ActionIs(env, flow, l, e, form);
    hide ProcessAction, FlowResponse, GoOn, Enter, Posted;
  }

  lemma PasswordIs(env: Env, flow: seq<Execution>, l: Login<Reset>, user: Option<Id>)
    requires IsResetFlow(flow) && QueueFits(l)
    requires NothingSucceeded(l) && l.column != Authenticated ==> l.rest.queue == [] && l.rest.selected == None
    ensures HandlePassword(env, l, user) == Script(env, flow, l, PasswordLogin(user))
  {}
}

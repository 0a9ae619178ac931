/** Required actions after the flow: a queue whose head is challenged, answered
    and popped. The actions themselves are arbitrary. */
module RequiredActions {
  import opened Prelude
  import opened FlowEngine

  datatype Answer = Succeeded | Asked | Failed

  /** The queue, the current action, and the rest of the session. */
  datatype Queue<A> = Queue(pending: seq<string>, current: Option<string>, rest: A)

  /** A provider reads the queue and may change the rest of the session. */
  datatype Provider<!A> = Provider(challenge: Queue<A> -> (A, Answer), action: (Queue<A>, Form) -> (A, Answer))

  datatype Progress = AllDone | AskedFor(provider: string) | FailedAt(provider: string) | Invalid

  // ---------------------------------------------------------------- specification

  /** `required_action_challenge`. */
  function Challenge<A>(registry: map<string, Provider<A>>, q: Queue<A>): (Queue<A>, Progress)
    decreases |q.pending|, 1
  {
    if q.pending == [] then (q.(current := None), AllDone)
    else
      var provider := q.pending[0];
      var now := q.(current := Some(provider));
      if provider !in registry then (now, Invalid)
      else
        var (rest, answer) := registry[provider].challenge(now);
        Conclude(registry, now.(rest := rest), provider, answer)
  }

  /** `_outcome`: a success pops the head and goes on with the next action. */
  function Conclude<A>(registry: map<string, Provider<A>>, q: Queue<A>, provider: string,
                       answer: Answer): (Queue<A>, Progress)
    decreases |q.pending|, 0
  {
    match answer
    case Succeeded =>
      if q.pending == [] || q.pending[0] != provider then (q, Invalid)
      else Challenge(registry, q.(pending := q.pending[1..], current := None))
    case Asked => (q, AskedFor(provider))
    case Failed => (q, FailedAt(provider))
  }

  /** `process_required_action`. */
  function ProcessRequired<A>(registry: map<string, Provider<A>>, q: Queue<A>, provider: string,
                              form: Form): (Queue<A>, Progress)
  {
    if q.pending == [] || q.pending[0] != provider || q.current != Some(provider) || provider !in registry
    then (q, Invalid)
    else
      var (rest, answer) := registry[provider].action(q, form);
      Conclude(registry, q.(rest := rest), provider, answer)
  }

  // ---------------------------------------------------------------- the manager itself

  class AuthenticationManager<A> {
    var pending: seq<string>
    var current: Option<string>
    var rest: A
    const registry: map<string, Provider<A>>

    constructor (q: Queue<A>, registry: map<string, Provider<A>>)
      ensures View() == q && this.registry == registry
    {
      pending, current, rest, this.registry := q.pending, q.current, q.rest, registry;
    }

    function View(): Queue<A>
      reads this
    {
      Queue(pending, current, rest)
    }

    /** `required_action_challenge`; each recursive call has a shorter queue. */
    method RequiredActionChallenge() returns (progress: Progress)
      modifies this
      ensures (View(), progress) == Challenge(registry, old(View()))
      decreases |pending|, 1
    {
      if pending == [] {
        current := None;
        return AllDone;
      }
      var provider := pending[0];
      current := Some(provider);
      if provider !in registry {
        return Invalid;
      }
      var (after, answer) := registry[provider].challenge(View());
      rest := after;
      progress := Outcome(provider, answer);
    }

    /** `_outcome`. */
    method Outcome(provider: string, answer: Answer) returns (progress: Progress)
      modifies this
      ensures (View(), progress) == Conclude(registry, old(View()), provider, answer)
      decreases |pending|, 0
    {
      match answer
      case Succeeded =>
        if pending == [] || pending[0] != provider {
          return Invalid;
        }
        pending := pending[1..];
        current := None;
        progress := RequiredActionChallenge();
      case Asked => progress := AskedFor(provider);
      case Failed => progress := FailedAt(provider);
    }

    /** `process_required_action`. */
    method Process(provider: string, form: Form) returns (progress: Progress)
      modifies this
      ensures (View(), progress) == ProcessRequired(registry, old(View()), provider, form)
    {
      if pending == [] || pending[0] != provider || current != Some(provider) || provider !in registry {
        return Invalid;
      }
      var (after, answer) := registry[provider].action(View(), form);
      rest := after;
      progress := Outcome(provider, answer);
    }
  }

  // ---------------------------------------------------------------- properties

  /** The current action is null or the head of the queue. */
  predicate HeadIsCurrent<A>(q: Queue<A>) {
    q.current.Some? ==> q.pending != [] && q.current.value == q.pending[0]
  }

  /** What a call that was not refused leaves: a suffix of the queue, empty exactly
      when everything is done, and otherwise with its head current and reported. */
  ghost predicate Advanced<A>(a: Queue<A>, b: Queue<A>, progress: Progress) {
    && |b.pending| <= |a.pending| && b.pending == a.pending[|a.pending| - |b.pending|..]
    && HeadIsCurrent(b)
    && (progress == AllDone <==> b.pending == []) && (b.pending == [] ==> b.current.None?)
    && (progress.AskedFor? || progress.FailedAt? ==> b.current == Some(progress.provider))
  }

  lemma {:induction false} ChallengeAdvances<A>(registry: map<string, Provider<A>>, q: Queue<A>)
    requires Challenge(registry, q).1 != Invalid
    ensures Advanced(q, Challenge(registry, q).0, Challenge(registry, q).1)
    decreases |q.pending|
  {
    if q.pending != [] {
      var provider := q.pending[0];
      var now := q.(current := Some(provider));
      var (rest, answer) := registry[provider].challenge(now);
      if answer == Succeeded {
        var next := now.(rest := rest, pending := q.pending[1..], current := None);
        assert Challenge(registry, q) == Challenge(registry, next);
        ChallengeAdvances(registry, next);
        PoppedAdvances(q, next, Challenge(registry, next).0, Challenge(registry, next).1);
      }
    }
  }

  lemma PoppedAdvances<A>(a: Queue<A>, b: Queue<A>, c: Queue<A>, progress: Progress)
    requires a.pending != [] && b.pending == a.pending[1..] && Advanced(b, c, progress)
    ensures Advanced(a, c, progress)
  {}

  /** Whatever the actions do, the current action stays null or the queue's head,
      and the queue is only consumed from its front. */
  lemma ProcessAdvances<A>(registry: map<string, Provider<A>>, q: Queue<A>, provider: string, form: Form)
    requires ProcessRequired(registry, q, provider, form).1 != Invalid
    ensures Advanced(q, ProcessRequired(registry, q, provider, form).0, ProcessRequired(registry, q, provider, form).1)
  {
    var (rest, answer) := registry[provider].action(q, form);
    if answer == Succeeded {
      var next := q.(rest := rest, pending := q.pending[1..], current := None);
      ChallengeAdvances(registry, next);
      PoppedAdvances(q, next, Challenge(registry, next).0, Challenge(registry, next).1);
    }
  }
}

/**
 Handling an event is a sequence of few kinds of operation on one controller and the stream.  What
 each operation keeps is therefore kept by every handler, and by every run.
 */
module ControllerPlan {
  import opened Wrappers
  import opened ControllerModel

  datatype Operation =
    | Remember(e: Event)
    | Become(state: AgentState)
    | Settle
    | AskRecall
    | Forget(point: nat)
    | Say(e: Event, source: Source)
    | Flag(iterationLimit: bool)
    | Use(action: Event, analyzed: Risk)
    | Spawn(hasTask: bool, o: Oracle)

  /** An event that is no tool action, no state change and no delegate's result, which are emitted in other ways. */
  predicate Plain(e: Event) {
    !e.StateChanged? && !e.ToolAction? && !e.DelegateObservation?
  }

  predicate Allowed(p: Pair, a: Operation) {
    match a
    case Settle => p.c.agentState != AWAITING_USER_CONFIRMATION
    case Say(e, _) => Plain(e)
    case Use(action, _) => action.ToolAction? && p.c.agentState == RUNNING && p.c.pending.None?
    case _ => true
  }

  function Apply(p: Pair, a: Operation): (p': Pair)
    requires Allowed(p, a)
    ensures p.stream <= p'.stream
  {
    match a
    case Remember(e) => p.(c := AddHistory(p.c, e))
    case Become(state) => SetAgentState(p, state)
    case Settle => p.(c := p.c.(pending := None))
    case AskRecall => HandleMessage(p, Message(NewHead(FromUser), false))
    case Forget(point) => p.(c := Truncate(p.c, point))
    case Say(e, source) => Emit(p, e, source)
    case Flag(iterationLimit) => p.(c := p.c.(iterationLimitError := iterationLimit))
    case Use(action, analyzed) => Perform(p, action, analyzed)
    case Spawn(hasTask, o) => StartDelegate(p, hasTask, o)
  }

  predicate Playable(p: Pair, plan: seq<Operation>)
    decreases |plan|
  {
    plan == [] || (Allowed(p, plan[0]) && Playable(Apply(p, plan[0]), plan[1..]))
  }

  function Play(p: Pair, plan: seq<Operation>): Pair
    requires Playable(p, plan)
    decreases |plan|
  {
    if plan == [] then p else Play(Apply(p, plan[0]), plan[1..])
  }

  /** Only handling a delegate action starts a delegate. */
  predicate Within(plan: seq<Operation>, spawns: bool) {
    forall i :: 0 <= i < |plan| ==> plan[i].Spawn? ==> spawns
  }

  /** Every operation keeps `keeps`; starting a delegate has to only if `spawns`. */
  ghost predicate Stable(keeps: Pair -> bool, spawns: bool) {
    forall p, a :: keeps(p) && Allowed(p, a) && (a.Spawn? ==> spawns) ==> keeps(Apply(p, a))
  }

  lemma {:induction false} PlayKeeps(keeps: Pair -> bool, p: Pair, plan: seq<Operation>, spawns: bool)
    requires Stable(keeps, spawns) && keeps(p) && Playable(p, plan) && Within(plan, spawns)
    ensures keeps(Play(p, plan))
    decreases |plan|
  {
    if plan != [] {
      assert Allowed(p, plan[0]) && (plan[0].Spawn? ==> spawns);
      PlayKeeps(keeps, Apply(p, plan[0]), plan[1..], spawns);
    }
  }

  /** `q` is what some plan makes of `p`. */
  ghost predicate Planned(p: Pair, q: Pair, spawns: bool) {
    exists plan :: Playable(p, plan) && Play(p, plan) == q && Within(plan, spawns)
  }

  lemma {:induction false} PlayJoin(p: Pair, a: seq<Operation>, b: seq<Operation>)
    requires Playable(p, a) && Playable(Play(p, a), b)
    ensures Playable(p, a + b) && Play(p, a + b) == Play(Play(p, a), b)
    decreases |a|
  {
    if a == [] {
      assert a + b == b;
    } else {
      assert (a + b)[1..] == a[1..] + b;
      PlayJoin(Apply(p, a[0]), a[1..], b);
    }
  }

  lemma Refl(p: Pair, spawns: bool)
    ensures Planned(p, p, spawns)
  {
    assert Playable(p, []) && Play(p, []) == p;
  }

  lemma One(p: Pair, a: Operation, spawns: bool)
    requires Allowed(p, a) && (a.Spawn? ==> spawns)
    ensures Planned(p, Apply(p, a), spawns)
  {
    assert [a][1..] == [];
    assert Play(Apply(p, a), []) == Apply(p, a);
    assert Playable(p, [a]) && Play(p, [a]) == Apply(p, a);
  }

  lemma Join(p: Pair, q: Pair, r: Pair, spawns: bool)
    requires Planned(p, q, spawns) && Planned(q, r, spawns)
    ensures Planned(p, r, spawns)
  {
    var a :| Playable(p, a) && Play(p, a) == q && Within(a, spawns);
    var b :| Playable(q, b) && Play(q, b) == r && Within(b, spawns);
    PlayJoin(p, a, b);
  }

  lemma Then(p: Pair, q: Pair, a: Operation, spawns: bool)
    requires Planned(p, q, spawns) && Allowed(q, a) && (a.Spawn? ==> spawns)
    ensures Planned(p, Apply(q, a), spawns)
  {
    One(q, a, spawns);
    Join(p, q, Apply(q, a), spawns);
  }

  lemma ObservationPlanned(p: Pair, e: Event, spawns: bool)
    ensures Planned(p, HandleObservation(p, e), spawns)
  {
    Refl(p, spawns);
    if p.c.agentState != AWAITING_USER_CONFIRMATION {
      var cleared := Apply(p, Settle);
      One(p, Settle, spawns);
      Then(p, cleared, Become(RUNNING), spawns);
      Then(p, cleared, Become(AWAITING_USER_INPUT), spawns);
    }
  }

  lemma RecoveryPlanned(p: Pair, point: nat, spawns: bool)
    ensures Planned(p, RecoverFromLoop(p, point), spawns)
  {
    var p1 := Apply(p, Forget(point));
    One(p, Forget(point), spawns);
    Then(p, p1, Become(AWAITING_USER_INPUT), spawns);
    Then(p, Apply(p1, Become(AWAITING_USER_INPUT)), Say(LoopDetection(NewHead(FromEnvironment)), FromEnvironment), spawns);
  }

  lemma RestartPlanned(p: Pair, point: nat, spawns: bool)
    ensures Planned(p, RestartWithLastMessage(p, point), spawns)
  {
    if HasUserMessage(p.c.history) {
      var p1 := Apply(p, Forget(point));
      One(p, Forget(point), spawns);
      var p2 := Apply(p1, Become(RUNNING));
      Then(p, p1, Become(RUNNING), spawns);
      var say := Say(LoopDetection(NewHead(FromEnvironment)), FromEnvironment);
      Then(p, p2, say, spawns);
      Then(p, Apply(p2, say), AskRecall, spawns);
    } else {
      RecoveryPlanned(p, point, spawns);
    }
  }

  lemma ActionPlanned(p: Pair, e: Event, o: Oracle, spawns: bool)
    requires e.Delegate? ==> spawns
    ensures Planned(p, HandleAction(p, e, o), spawns)
  {
    Refl(p, spawns);
    match e {
      case ChangeAgentState(_, target) => One(p, Become(target), spawns);
      case Message(head, _) =>
        if head.source.FromUser? {
          One(p, AskRecall, spawns);
        } else {
          One(p, Become(AWAITING_USER_INPUT), spawns);
        }
      case Delegate(_, hasTask) => One(p, Spawn(hasTask, o), spawns);
      case Finish(_) => One(p, Become(FINISHED), spawns);
      case Reject(_) => One(p, Become(REJECTED), spawns);
      case LoopRecovery(_, _) =>
        if o.loopStart.Some? {
          RecoveryPlanned(p, o.loopStart.value, spawns);
          RestartPlanned(p, o.loopStart.value, spawns);
          One(p, Become(STOPPED), spawns);
        }
      case _ =>
    }
  }

  /** The agent only acts, it does not observe. */
  predicate Sensible(o: Oracle) {
    o.step.Act? ==> !IsObservation(o.step.action)
  }

  lemma FailPlanned(p: Pair, state: AgentState, iterationLimit: bool, spawns: bool)
    ensures Planned(p, Fail(p, state, iterationLimit), spawns)
  {
    One(p, Flag(iterationLimit), spawns);
    Then(p, Apply(p, Flag(iterationLimit)), Become(state), spawns);
  }

  lemma PerformPlanned(p: Pair, action: Event, analyzed: Risk, spawns: bool)
    requires !IsObservation(action) && p.c.agentState == RUNNING && p.c.pending.None?
    ensures Planned(p, Perform(p, action, analyzed), spawns)
  {
    if action.ToolAction? {
      One(p, Use(action, analyzed), spawns);
    } else if action.NullAction? {
      Refl(p, spawns);
    } else {
      One(p, Say(action, action.head.source), spawns);
    }
  }

  lemma StepPlanned(p: Pair, o: Oracle, spawns: bool)
    requires Sensible(o)
    ensures Planned(p, StepAgent(p, o), spawns)
  {
    if p.c.agentState != RUNNING || p.c.pending.Some? {
      Refl(p, spawns);
    } else {
      match o.step
      case Act(action) => PerformPlanned(p, action, o.analyzed, spawns);
      case SoftError => One(p, Say(ErrorObservation(NewHead(FromAgent)), FromAgent), spawns);
      case ContextTooLong => One(p, Say(CondensationRequest(NewHead(FromAgent)), FromAgent), spawns);
      case Stuck => FailPlanned(p, ERROR, false, spawns);
      case LimitHit(iteration) => FailPlanned(p, ERROR, iteration, spawns);
      case RateLimited => FailPlanned(p, RATE_LIMITED, false, spawns);
      case Raises => FailPlanned(p, ERROR, false, spawns);
    }
  }

  /** Whatever one controller does with one event is such a sequence. */
  lemma HandlePlanned(p: Pair, e: Event, o: Oracle, spawns: bool)
    requires Sensible(o) && (e.Delegate? ==> spawns)
    ensures Planned(p, Handle(p, e, o), spawns)
  {
    Refl(p, spawns);
    if !e.head.hidden {
      var p1 := Apply(p, Remember(e));
      One(p, Remember(e), spawns);
      var p2 := if IsObservation(e) then HandleObservation(p1, e) else HandleAction(p1, e, o);
      ObservationPlanned(p1, e, spawns);
      ActionPlanned(p1, e, o, spawns);
      Join(p, p1, p2, spawns);
      StepPlanned(p2, o, spawns);
      Join(p, p2, StepAgent(p2, o), spawns);
    }
  }

  lemma HandleKeeps(keeps: Pair -> bool, p: Pair, e: Event, o: Oracle, spawns: bool)
    requires Stable(keeps, spawns) && keeps(p) && Sensible(o) && (e.Delegate? ==> spawns)
    ensures keeps(Handle(p, e, o))
  {
    HandlePlanned(p, e, o, spawns);
    var plan :| Playable(p, plan) && Play(p, plan) == Handle(p, e, o) && Within(plan, spawns);
    PlayKeeps(keeps, p, plan, spawns);
  }
}

/** What every run of the agent controller keeps: pending actions, the trace of states, and confirmation. */
module ControllerSafety {
  import opened Wrappers
  import opened ControllerModel
  import opened ControllerPlan

  predicate Halted(state: AgentState) {
    state == STOPPED || state == ERROR
  }

  // ----- a halted agent has no pending action -----

  /** For the controller and, recursively, its delegate. */
  predicate QuietWhenHalted(c: Controller) {
    && (Halted(c.agentState) ==> c.pending.None?)
    && (c.delegate.Some? ==> QuietWhenHalted(c.delegate.value))
  }

  /** The part of set_agent_state_to before the change itself is shown. */
  function BeforeShowing(p: Pair, state: AgentState): Pair {
    var p1 := p.(c := p.c.(agentState := state));
    if Halted(state) then Reset(p1)
    else if p1.c.pending.Some? && state == USER_CONFIRMED then Decide(p1, Confirmed)
    else if p1.c.pending.Some? && state == USER_REJECTED then Decide(p1, Rejected)
    else p1
  }

  lemma SetAgentStateSplits(p: Pair, state: AgentState)
    requires state != p.c.agentState
    ensures SetAgentState(p, state) == Emit(BeforeShowing(p, state), StateChanged(NewHead(FromEnvironment), state), FromEnvironment)
  {
  }

  lemma BeforeShowingEnters(p: Pair, state: AgentState)
    ensures var q := BeforeShowing(p, state);
      && q.c == p.c.(agentState := state, pending := q.c.pending)
      && (Halted(state) ==> q.c.pending.None?)
      && (q.c.pending.Some? && q.c.pending.value.StateChanged? ==> p.c.pending.Some? && p.c.pending.value.StateChanged?)
  {
  }

  /** set_agent_state_to leaves a controller in that state, with no pending action if it is halted. */
  lemma AfterSetAgentState(p: Pair, state: AgentState)
    ensures var q := SetAgentState(p, state);
      && q.c.agentState == state && q.c.delegate == p.c.delegate
      && (state == p.c.agentState ==> q == p)
      && (state != p.c.agentState && Halted(state) ==> q.c.pending.None?)
      && q.c == p.c.(agentState := state, pending := q.c.pending)
  {
    if state != p.c.agentState {
      SetAgentStateSplits(p, state);
      BeforeShowingEnters(p, state);
    }
  }

  lemma RecallKeepsQuiet(p: Pair)
    requires QuietWhenHalted(p.c)
    ensures QuietWhenHalted(Apply(p, AskRecall).c)
  {
    var recall := Recall(NewHead(FromUser));
    AfterSetAgentState(Emit(p, recall, FromUser).(c := p.c.(pending := Some(Numbered(p.stream, recall, FromUser)))), RUNNING);
  }

  lemma UseKeepsQuiet(p: Pair, action: Event, analyzed: Risk)
    requires QuietWhenHalted(p.c) && Allowed(p, Use(action, analyzed))
    ensures QuietWhenHalted(Apply(p, Use(action, analyzed)).c)
  {
    AfterSetAgentState(p.(c := p.c.(pending := Some(Gate(p.c, action, analyzed)))), AWAITING_USER_CONFIRMATION);
  }

  lemma SpawnKeepsQuiet(p: Pair, hasTask: bool, o: Oracle)
    requires QuietWhenHalted(p.c)
    ensures QuietWhenHalted(StartDelegate(p, hasTask, o).c)
  {
    var p1 := if o.delegateHasSystemMessage then Emit(p, SystemMessage(NewHead(FromAgent)), FromAgent) else p;
    var p2 := Emit(p1, Message(NewHead(FromUser), false), FromUser);
    AfterSetAgentState(Pair(NewDelegate(p.c, o.delegateCliMode), p2.stream), RUNNING);
  }

  lemma OperationKeepsQuiet(p: Pair, a: Operation)
    requires QuietWhenHalted(p.c) && Allowed(p, a)
    ensures QuietWhenHalted(Apply(p, a).c)
  {
    match a
    case Become(state) => AfterSetAgentState(p, state);
    case AskRecall => RecallKeepsQuiet(p);
    case Use(action, analyzed) => UseKeepsQuiet(p, action, analyzed);
    case Spawn(hasTask, o) => SpawnKeepsQuiet(p, hasTask, o);
    case Remember(_) =>
    case Settle =>
    case Forget(_) =>
    case Say(_, _) =>
    case Flag(_) =>
  }

  predicate CutAt(before: seq<Event>, after: seq<Event>, point: nat) {
    after == if point < |before| then before[..point] else before
  }

  /** Recovery from a loop forgets the history from the loop on, and waits for the user. */
  lemma RecoveringWaits(p: Pair, point: nat)
    ensures var q := RecoverFromLoop(p, point);
      && CutAt(p.c.history, q.c.history, point)
      && q.c.agentState == AWAITING_USER_INPUT && q.c.pending == p.c.pending
      && q.stream != [] && q.stream[|q.stream| - 1].LoopDetection? && q.stream[|q.stream| - 1].head.source == FromEnvironment
  {
    var cut := p.(c := Truncate(p.c, point));
    AfterSetAgentState(cut, AWAITING_USER_INPUT);
    if p.c.agentState != AWAITING_USER_INPUT {
      SetAgentStateSplits(cut, AWAITING_USER_INPUT);
    }
  }

  /** A user message to a running agent makes a new recall the pending action. */
  lemma MessageRecalls(p: Pair, e: Event)
    requires IsUserMessage(e) && p.c.agentState == RUNNING
    ensures var q := HandleMessage(p, e);
      && q.stream == p.stream + [Numbered(p.stream, Recall(NewHead(FromUser)), FromUser)]
      && q.c == p.c.(pending := Some(q.stream[|p.stream|]))
  {
  }

  lemma HasUserMessageExactly(history: seq<Event>)
    ensures HasUserMessage(history) <==> exists m :: m in history && m.Message? && m.head.source == FromUser
  {
    if HasUserMessage(history) {
      var i :| 0 <= i < |history| && IsUserMessage(history[i]);
      assert history[i] in history;
    }
  }

  /** A restart forgets it too, and asks again with a new recall as the pending action; without a user message it waits. */
  lemma RestartingAsksAgain(p: Pair, point: nat)
    ensures var q := RestartWithLastMessage(p, point);
      && CutAt(p.c.history, q.c.history, point)
      && q.stream != []
      && var asks := exists m :: m in p.c.history && m.Message? && m.head.source == FromUser;
      && (asks ==>
            q.c.agentState == RUNNING && q.stream[|q.stream| - 1].Recall? && q.c.pending == Some(q.stream[|q.stream| - 1]))
      && (!asks ==> q.c.agentState == AWAITING_USER_INPUT && q.c.pending == p.c.pending)
  {
    HasUserMessageExactly(p.c.history);
    if HasUserMessage(p.c.history) {
      var p1 := SetAgentState(p.(c := Truncate(p.c, point)), RUNNING);
      AfterSetAgentState(p.(c := Truncate(p.c, point)), RUNNING);
      MessageRecalls(Emit(p1, LoopDetection(NewHead(FromEnvironment)), FromEnvironment), Message(NewHead(FromUser), false));
    } else {
      RecoveringWaits(p, point);
    }
  }

  lemma HandleKeepsQuiet(p: Pair, e: Event, o: Oracle)
    requires QuietWhenHalted(p.c) && Sensible(o)
    ensures QuietWhenHalted(Handle(p, e, o).c)
  {
    var quiet := (q: Pair) => QuietWhenHalted(q.c);
    forall q, a | quiet(q) && Allowed(q, a) ensures quiet(Apply(q, a)) {
      OperationKeepsQuiet(q, a);
    }
    HandleKeeps(quiet, p, e, o, true);
  }

  predicate SensibleMove(move: Move) {
    move.Process? ==> Sensible(move.o)
  }

  predicate SensibleMoves(moves: seq<Move>) {
    forall i :: 0 <= i < |moves| ==> SensibleMove(moves[i])
  }

  lemma NextKeepsQuiet(w: World, move: Move)
    requires QuietWhenHalted(w.root) && SensibleMove(move)
    ensures QuietWhenHalted(Next(w, move).root)
  {
    if move.Process? && w.cursor < |w.stream| {
      if w.root.delegate.None? {
        HandleKeepsQuiet(Pair(w.root, w.stream), w.stream[w.cursor], move.o);
      } else if Forwards(w.root.delegate.value) {
        HandleKeepsQuiet(Pair(w.root.delegate.value, w.stream), w.stream[w.cursor], move.o);
      }
    } else if move.SetState? {
      OperationKeepsQuiet(Pair(w.root, w.stream), Become(move.state));
    }
  }

  /** In every reachable state a controller that is STOPPED or in ERROR has no pending action. */
  lemma {:induction false} HaltedMeansNothingPending(w: World, moves: seq<Move>)
    requires QuietWhenHalted(w.root) && SensibleMoves(moves)
    ensures QuietWhenHalted(Run(w, moves).root)
    decreases |moves|
  {
    if moves != [] {
      NextKeepsQuiet(w, moves[0]);
      HaltedMeansNothingPending(Next(w, moves[0]), moves[1..]);
    }
  }

  lemma ObservedExactly(history: seq<Event>, toolCall: Option<int>)
    ensures Observed(history, toolCall) <==> exists e :: e in history && IsObservation(e) && e.head.toolCall == toolCall
  {
    if Observed(history, toolCall) {
      var i :| 0 <= i < |history| && IsObservation(history[i]) && history[i].head.toolCall == toolCall;
      assert history[i] in history;
    }
  }

  /**
   On entry into STOPPED or ERROR the tool call of the pending action has an observation in the
   history already, or one is appended now that names the action as its cause, never both.
   */
  lemma HaltingAnswersPendingCall(p: Pair, state: AgentState)
    requires Halted(state) && p.c.agentState != state && p.c.pending.Some?
    ensures var p' := SetAgentState(p, state);
      var action := p.c.pending.value;
      var appended := p'.stream[|p.stream|..];
      var observed := exists e :: e in p.c.history && IsObservation(e) && e.head.toolCall == action.head.toolCall;
      && p'.c.pending.None?
      && (observed <==> appended == [StateChanged(Head(|p.stream|, FromEnvironment, None, None, false), state)])
      && (!observed <==>
            && |appended| == 2 && appended[0].ErrorObservation? && appended[1].StateChanged?
            && appended[0].head == Head(|p.stream|, FromAgent, Some(action.head.id), action.head.toolCall, false))
  {
    ObservedExactly(p.c.history, p.c.pending.value.head.toolCall);
  }

  // ----- the stream shows every change of state -----

  function StatesIn(stream: seq<Event>): seq<AgentState> {
    if stream == [] then []
    else if stream[|stream| - 1].StateChanged? then StatesIn(stream[..|stream| - 1]) + [stream[|stream| - 1].state]
    else StatesIn(stream[..|stream| - 1])
  }

  lemma EmitShowsState(p: Pair, e: Event, source: Source)
    ensures StatesIn(Emit(p, e, source).stream) == if e.StateChanged? then StatesIn(p.stream) + [e.state] else StatesIn(p.stream)
  {
    var p' := Emit(p, e, source);
    assert p'.stream[..|p'.stream| - 1] == p.stream;
  }

  /** The changes lead from one state to the other without stuttering. */
  predicate Traces(before: AgentState, changes: seq<AgentState>, after: AgentState)
    decreases |changes|
  {
    if changes == [] then before == after
    else changes[0] != before && Traces(changes[0], changes[1..], after)
  }

  lemma {:induction false} TracesSnoc(a: AgentState, changes: seq<AgentState>, b: AgentState, c: AgentState)
    requires Traces(a, changes, b) && b != c
    ensures Traces(a, changes + [c], c)
    decreases |changes|
  {
    if changes == [] {
      assert ([] + [c])[1..] == [];
    } else {
      TracesSnoc(changes[0], changes[1..], b, c);
      assert (changes + [c])[1..] == changes[1..] + [c];
    }
  }

  lemma {:induction false} TracesEnd(a: AgentState, changes: seq<AgentState>, b: AgentState)
    requires Traces(a, changes, b)
    ensures b == if changes == [] then a else changes[|changes| - 1]
    decreases |changes|
  {
    if changes != [] {
      TracesEnd(changes[0], changes[1..], b);
    }
  }

  lemma BeforeShowingShowsNothing(p: Pair, state: AgentState)
    requires p.c.pending.Some? ==> !p.c.pending.value.StateChanged?
    ensures StatesIn(BeforeShowing(p, state).stream) == StatesIn(p.stream)
  {
    if p.c.pending.Some? {
      var p1 := p.(c := p.c.(agentState := state));
      EmitShowsState(p1, NotExecuted(p.c.pending.value), FromAgent);
      EmitShowsState(p1, WithConfirmation(p.c.pending.value, Confirmed), FromAgent);
      EmitShowsState(p1, WithConfirmation(p.c.pending.value, Rejected), FromAgent);
    }
  }

  /** Every real change of state appends exactly one observation of it. */
  lemma ChangeShownOnce(p: Pair, state: AgentState)
    requires p.c.pending.Some? ==> !p.c.pending.value.StateChanged?
    ensures StatesIn(SetAgentState(p, state).stream) == if state == p.c.agentState then StatesIn(p.stream) else StatesIn(p.stream) + [state]
  {
    if state != p.c.agentState {
      SetAgentStateSplits(p, state);
      BeforeShowingShowsNothing(p, state);
      EmitShowsState(BeforeShowing(p, state), StateChanged(NewHead(FromEnvironment), state), FromEnvironment);
    }
  }

  predicate PendingIsAction(c: Controller) {
    c.pending.Some? ==> !c.pending.value.StateChanged?
  }

  /** Without delegates, the stream shows the path of the agent state from `start` to where it is. */
  predicate Traced(p: Pair, start: AgentState) {
    && p.c.delegate.None? && PendingIsAction(p.c)
    && Traces(start, StatesIn(p.stream), p.c.agentState)
  }

  lemma BecomeKeepsTraced(p: Pair, state: AgentState, start: AgentState)
    requires Traced(p, start)
    ensures Traced(SetAgentState(p, state), start)
  {
    if state != p.c.agentState {
      var q := SetAgentState(p, state);
      SetAgentStateSplits(p, state);
      BeforeShowingEnters(p, state);
      assert q.c == BeforeShowing(p, state).c;
      ChangeShownOnce(p, state);
      TracesSnoc(start, StatesIn(p.stream), p.c.agentState, state);
    }
  }

  lemma RecallKeepsTraced(p: Pair, start: AgentState)
    requires Traced(p, start)
    ensures Traced(Apply(p, AskRecall), start)
  {
    var recall := Recall(NewHead(FromUser));
    EmitShowsState(p, recall, FromUser);
    BecomeKeepsTraced(Emit(p, recall, FromUser).(c := p.c.(pending := Some(Numbered(p.stream, recall, FromUser)))), RUNNING, start);
  }

  lemma AskKeepsTraced(p: Pair, gated: Event, start: AgentState)
    requires Traced(p, start) && gated.ToolAction?
    ensures Traced(Ask(p, gated), start)
  {
    BecomeKeepsTraced(p.(c := p.c.(pending := Some(gated))), AWAITING_USER_CONFIRMATION, start);
  }

  lemma UseKeepsTraced(p: Pair, action: Event, analyzed: Risk, start: AgentState)
    requires Traced(p, start) && Allowed(p, Use(action, analyzed))
    ensures Traced(Apply(p, Use(action, analyzed)), start)
  {
    var gated := Gate(p.c, action, analyzed);
    AskKeepsTraced(p, gated, start);
    EmitShowsState(Ask(p, gated), gated, gated.head.source);
  }

  lemma OperationKeepsTraced(p: Pair, a: Operation, start: AgentState)
    requires Traced(p, start) && Allowed(p, a) && !a.Spawn?
    ensures Traced(Apply(p, a), start)
  {
    match a
    case Become(state) => BecomeKeepsTraced(p, state, start);
    case AskRecall => RecallKeepsTraced(p, start);
    case Use(action, analyzed) => UseKeepsTraced(p, action, analyzed, start);
    case Say(e, source) => EmitShowsState(p, e, source);
    case Remember(_) =>
    case Settle =>
    case Forget(_) =>
    case Flag(_) =>
    case Spawn(_, _) =>
  }

  lemma HandleKeepsTraced(p: Pair, e: Event, o: Oracle, start: AgentState)
    requires Traced(p, start) && Sensible(o) && !e.Delegate?
    ensures Traced(Handle(p, e, o), start)
  {
    var traced := (q: Pair) => Traced(q, start);
    forall q, a | traced(q) && Allowed(q, a) && !a.Spawn? ensures traced(Apply(q, a)) {
      OperationKeepsTraced(q, a, start);
    }
    HandleKeeps(traced, p, e, o, false);
  }

  /** Only controllers announce changes of state. */
  predicate Outside(moves: seq<Move>) {
    forall i :: 0 <= i < |moves| ==> moves[i].Append? ==> !moves[i].e.StateChanged?
  }

  predicate NoDelegation(stream: seq<Event>) {
    forall i :: 0 <= i < |stream| ==> !stream[i].Delegate?
  }

  lemma NextKeepsTraced(w: World, move: Move, start: AgentState)
    requires Traced(Pair(w.root, w.stream), start) && SensibleMove(move) && NoDelegation(w.stream)
    requires move.Append? ==> !move.e.StateChanged?
    ensures Traced(Pair(Next(w, move).root, Next(w, move).stream), start)
  {
    match move
    case Append(e) =>
      assert Next(w, move).stream[..|w.stream|] == w.stream;
    case Process(o) =>
      if w.cursor < |w.stream| {
        HandleKeepsTraced(Pair(w.root, w.stream), w.stream[w.cursor], o, start);
      }
    case SetState(state) => BecomeKeepsTraced(Pair(w.root, w.stream), state, start);
  }

  lemma {:induction false} RunKeepsTraced(w: World, moves: seq<Move>, start: AgentState)
    requires Traced(Pair(w.root, w.stream), start) && SensibleMoves(moves) && Outside(moves)
    requires NoDelegation(Run(w, moves).stream)
    ensures Traced(Pair(Run(w, moves).root, Run(w, moves).stream), start)
    decreases |moves|
  {
    if moves != [] {
      var w1 := Next(w, moves[0]);
      assert w.stream <= w1.stream <= Run(w1, moves[1..]).stream;
      NextKeepsTraced(w, moves[0], start);
      RunKeepsTraced(w1, moves[1..], start);
    }
  }

  /** _is_awaiting_observation: the latest state shown in the stream is RUNNING. */
  predicate IsAwaitingObservation(stream: seq<Event>) {
    if stream == [] then false
    else if stream[|stream| - 1].StateChanged? then stream[|stream| - 1].state == RUNNING
    else IsAwaitingObservation(stream[..|stream| - 1])
  }

  lemma {:induction false} AwaitingMeansLatest(stream: seq<Event>)
    ensures IsAwaitingObservation(stream) <==>
      StatesIn(stream) != [] && StatesIn(stream)[|StatesIn(stream)| - 1] == RUNNING
    decreases |stream|
  {
    if stream != [] {
      AwaitingMeansLatest(stream[..|stream| - 1]);
    }
  }

  /** What the path of states in the stream says about the awaiting test. */
  lemma TracedDecidesAwaiting(start: AgentState, stream: seq<Event>, state: AgentState)
    requires Traces(start, StatesIn(stream), state)
    ensures (IsAwaitingObservation(stream) <==> state == RUNNING) <==> (StatesIn(stream) != [] || start != RUNNING)
  {
    AwaitingMeansLatest(stream);
    TracesEnd(start, StatesIn(stream), state);
  }

  /**
   Over every run without delegates from a stream that shows no state yet, the stream shows
   exactly the stutter-free path of the agent state, and _is_awaiting_observation agrees with
   "the agent is RUNNING" exactly when the state has been shown at least once or is not RUNNING.
   */
  lemma StreamShowsStates(w: World, moves: seq<Move>)
    requires w.root.delegate.None? && PendingIsAction(w.root) && StatesIn(w.stream) == []
    requires SensibleMoves(moves) && Outside(moves) && NoDelegation(Run(w, moves).stream)
    ensures var r := Run(w, moves);
      && Traces(w.root.agentState, StatesIn(r.stream), r.root.agentState)
      && ((IsAwaitingObservation(r.stream) <==> r.root.agentState == RUNNING) <==>
            (StatesIn(r.stream) != [] || w.root.agentState != RUNNING))
  {
    RunKeepsTraced(w, moves, w.root.agentState);
    TracedDecidesAwaiting(w.root.agentState, Run(w, moves).stream, Run(w, moves).root.agentState);
  }
}

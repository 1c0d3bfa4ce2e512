/**
 Single turns of a controller, seen from outside: what wakes the agent, what its step comes to, which
 states the handlers lead to, and the round trip of an action that needs the user's answer.
 */
module ControllerTurns {
  import opened Wrappers
  import opened ControllerModel
  import opened ControllerSafety

  // ----- asking the user -----

  /** The user has to answer before this controller runs a tool action of that risk. */
  predicate NeedsAnswer(c: Controller, analyzed: Risk) {
    c.stateConfirmationMode && (c.cliMode || (c.confirmationMode && (!c.hasAnalyzer || analyzed == HIGH)))
  }

  lemma GateAsks(c: Controller, action: Event, analyzed: Risk)
    requires action.ToolAction? && action.confirmation == Unset
    ensures var gated := Gate(c, action, analyzed);
      && gated == action.(confirmation := gated.confirmation, risk := gated.risk)
      && gated.confirmation == (if NeedsAnswer(c, analyzed) then AwaitingConfirmation else Unset)
      && gated.risk == if !c.stateConfirmationMode then action.risk else if c.hasAnalyzer then analyzed else UNKNOWN
  {
  }

  /**
   A tool action makes the controller wait for the user exactly in confirmation mode, in the CLI for
   every action and elsewhere for those of high risk, or for every action without an analyzer; what
   enters the stream and becomes pending is the action, with the analyzer's risk.
   */
  lemma AsksExactly(p: Pair, action: Event, analyzed: Risk)
    requires p.c.agentState == RUNNING && action.ToolAction? && action.confirmation == Unset
    ensures var q := Perform(p, action, analyzed);
      && (q.c.agentState == AWAITING_USER_CONFIRMATION <==> NeedsAnswer(p.c, analyzed))
      && (q.c.agentState == RUNNING <==> !NeedsAnswer(p.c, analyzed))
      && q.c.pending.Some? && q.c.pending.value.ToolAction?
      && q.c.pending.value.tool == action.tool && q.c.pending.value.payload == action.payload
      && q.c.pending.value.head == action.head.(id := |q.stream| - 1)
      && q.c.pending.value.confirmation == (if NeedsAnswer(p.c, analyzed) then AwaitingConfirmation else Unset)
      && q.c.pending.value.risk
         == (if !p.c.stateConfirmationMode then action.risk else if p.c.hasAnalyzer then analyzed else UNKNOWN)
      && q.c == p.c.(agentState := q.c.agentState, pending := q.c.pending)
  {
    GateAsks(p.c, action, analyzed);
    AfterSetAgentState(p.(c := p.c.(pending := Some(Gate(p.c, action, analyzed)))), AWAITING_USER_CONFIRMATION);
  }

  predicate Shows(e: Event, state: AgentState) {
    e.StateChanged? && e.state == state && e.head.source == FromEnvironment
  }

  /** Without a pending action, a change of state only shows itself. */
  lemma ChangeShows(p: Pair, state: AgentState)
    requires p.c.pending.None? && p.c.agentState != state
    ensures var q := SetAgentState(p, state);
      q.c == p.c.(agentState := state) && |q.stream| == |p.stream| + 1 && p.stream <= q.stream && Shows(q.stream[|p.stream|], state)
  {
  }

  /** The stream's copy of an action, with this answer of the user if its type keeps one. */
  predicate Sends(e: Event, action: Event, confirmation: Confirmation) {
    && e.ToolAction? && action.ToolAction? && e.tool == action.tool && e.payload == action.payload
    && e.head.toolCall == action.head.toolCall
    && e.confirmation == if action.tool == CmdRun || action.tool == IPythonRunCell then confirmation else Unset
  }

  lemma AskingShows(p: Pair, action: Event, analyzed: Risk)
    requires p.c.agentState == RUNNING && action.ToolAction? && action.confirmation == Unset && NeedsAnswer(p.c, analyzed)
    ensures var q := Perform(p, action, analyzed);
      var n := |p.stream|;
      && |q.stream| == n + 2 && p.stream <= q.stream
      && Shows(q.stream[n], AWAITING_USER_CONFIRMATION) && Sends(q.stream[n + 1], action, AwaitingConfirmation)
  {
  }

  lemma AnsweringShows(q: Pair, confirms: bool)
    requires q.c.agentState == AWAITING_USER_CONFIRMATION && q.c.pending.Some? && q.c.pending.value.ToolAction?
    ensures var state := if confirms then USER_CONFIRMED else USER_REJECTED;
      var r := SetAgentState(q, state);
      var n := |q.stream|;
      && |r.stream| == n + 2 && q.stream <= r.stream
      && Sends(r.stream[n], q.c.pending.value, if confirms then Confirmed else Rejected) && r.stream[n].head.source == FromAgent
      && Shows(r.stream[n + 1], state)
      && r.c == q.c.(agentState := state, pending := r.c.pending)
      && r.c.pending.Some? && r.c.pending.value.head.id == n
  {
  }

  /**
   An observation of the pending action settles it, except while the user is being asked.  An action
   that was confirmed hands the turn back to the agent, one that was rejected to the user; any other
   observation changes nothing.
   */
  lemma ObservationSettlesExactly(p: Pair, e: Event)
    ensures var q := HandleObservation(p, e);
      var settles := p.c.pending.Some? && e.head.cause == Some(p.c.pending.value.head.id)
        && p.c.agentState != AWAITING_USER_CONFIRMATION;
      var state := if !settles then p.c.agentState
        else if p.c.agentState == USER_CONFIRMED then RUNNING
        else if p.c.agentState == USER_REJECTED then AWAITING_USER_INPUT
        else p.c.agentState;
      && q.c == p.c.(agentState := state, pending := if settles then None else p.c.pending)
      && (state == p.c.agentState ==> q.stream == p.stream)
      && (state != p.c.agentState ==> |q.stream| == |p.stream| + 1 && p.stream <= q.stream && Shows(q.stream[|p.stream|], state))
  {
    var cleared := p.(c := p.c.(pending := None));
    if p.c.agentState == USER_CONFIRMED {
      ChangeShows(cleared, RUNNING);
    } else if p.c.agentState == USER_REJECTED {
      ChangeShows(cleared, AWAITING_USER_INPUT);
    }
  }

  /** The runtime runs an action of the two types that keep the answer exactly if the user was not asked, or confirmed. */
  lemma RunsExactly(e: Event, action: Event, confirmation: Confirmation)
    requires Sends(e, action, confirmation)
    ensures Executable(e) <==>
      !(action.tool == CmdRun || action.tool == IPythonRunCell) || confirmation == Unset || confirmation == Confirmed
  {
  }

  /**
   From the action of a running agent, through the question, the user's answer and the observation of
   the action that was sent again, back to where it was: the agent runs on if the user confirmed, and
   the user has the turn if not.  The stream shows these five events and no other.
   */
  lemma ConfirmationRoundTrip(p: Pair, action: Event, analyzed: Risk, confirms: bool, observed: Event)
    requires p.c.agentState == RUNNING && p.c.pending.None? && NeedsAnswer(p.c, analyzed)
    requires action.ToolAction? && action.confirmation == Unset && observed.head.cause == Some(|p.stream| + 2)
    ensures var answer := if confirms then USER_CONFIRMED else USER_REJECTED;
      var end := if confirms then RUNNING else AWAITING_USER_INPUT;
      var done := HandleObservation(SetAgentState(Perform(p, action, analyzed), answer), observed);
      var n := |p.stream|;
      && done.c == p.c.(agentState := end)
      && |done.stream| == n + 5 && p.stream <= done.stream
      && Shows(done.stream[n], AWAITING_USER_CONFIRMATION)
      && Sends(done.stream[n + 1], action, AwaitingConfirmation)
      && Sends(done.stream[n + 2], action, if confirms then Confirmed else Rejected) && done.stream[n + 2].head.source == FromAgent
      && Shows(done.stream[n + 3], answer) && Shows(done.stream[n + 4], end)
  {
    AsksExactly(p, action, analyzed);
    AskingShows(p, action, analyzed);
    var asked := Perform(p, action, analyzed);
    AnsweringShows(asked, confirms);
    var answered := SetAgentState(asked, if confirms then USER_CONFIRMED else USER_REJECTED);
    ObservationSettlesExactly(answered, observed);
  }

  // ----- messages and commands -----

  /** A user's message becomes a pending recall and sets the agent running; an agent's that waits hands over the turn. */
  lemma MessageTurnsExactly(p: Pair, e: Event)
    requires e.Message?
    ensures var q := HandleMessage(p, e);
      && (e.head.source == FromUser ==>
            && q.c == p.c.(agentState := RUNNING, pending := q.c.pending)
            && |q.stream| == |p.stream| + (if p.c.agentState == RUNNING then 1 else 2)
            && q.stream[|p.stream|].Recall? && q.c.pending == Some(q.stream[|p.stream|]))
      && (e.head.source == FromAgent && e.waitForResponse ==> q == SetAgentState(p, AWAITING_USER_INPUT))
      && (e.head.source != FromUser && !(e.head.source == FromAgent && e.waitForResponse) ==> q == p)
  {
    if e.head.source == FromUser {
      var recall := Recall(NewHead(FromUser));
      var asked := Emit(p, recall, FromUser).(c := p.c.(pending := Some(Numbered(p.stream, recall, FromUser))));
      AfterSetAgentState(asked, RUNNING);
      if p.c.agentState != RUNNING {
        SetAgentStateSplits(asked, RUNNING);
      }
    }
  }

  /** The observation of a recall that a user's message asked for: what the memory found, or that there was nothing. */
  predicate AnswersRecall(e: Event, recall: int) {
    (e.OtherObservation? || (e.NullObservation? && recall > 0)) && !e.head.hidden && e.head.cause == Some(recall)
  }

  lemma MessageIsHandled(p: Pair, message: Event, o: Oracle)
    requires message.Message? && message.head.source == FromUser && !message.head.hidden
    ensures Handle(p, message, o) == HandleMessage(p.(c := AddHistory(p.c, message)), message)
  {
  }

  lemma MessageIsAsked(p: Pair, message: Event, o: Oracle)
    requires message.Message? && message.head.source == FromUser && !message.head.hidden && p.c.delegate.None?
    ensures var asked := Handle(p, message, o);
      var n := |p.stream|;
      && asked.c.agentState == RUNNING && asked.c.delegate.None?
      && |asked.stream| == n + (if p.c.agentState == RUNNING then 1 else 2)
      && asked.c.pending.Some? && asked.c.pending.value == asked.stream[n] && asked.c.pending.value.head.id == n
      && asked.stream[n].Recall? && asked.stream[n].head.source == FromUser
  {
    MessageIsHandled(p, message, o);
    var p1 := p.(c := AddHistory(p.c, message));
    var recall := Recall(NewHead(FromUser));
    var sent := Emit(p1, recall, FromUser).(c := p1.c.(pending := Some(Numbered(p1.stream, recall, FromUser))));
    AfterSetAgentState(sent, RUNNING);
    if p.c.agentState != RUNNING {
      SetAgentStateSplits(sent, RUNNING);
    }
  }

  /** The events after which the agent of a controller in this state may act. */
  predicate Wakes(state: AgentState, e: Event) {
    || (e.Message? && (e.head.source == FromUser || state != AWAITING_USER_INPUT))
    || e.Delegate? || e.Condensation? || e.CondensationRequest?
    || e.DelegateObservation? || e.ErrorObservation? || e.LoopDetection? || e.OtherObservation?
    || (e.NullObservation? && e.head.cause.Some? && e.head.cause.value > 0)
  }

  lemma WakesExactly(c: Controller, e: Event)
    ensures ShouldStep(c, e) <==> c.delegate.None? && Wakes(c.agentState, e)
  {
  }

  lemma SendsExactly(p: Pair, o: Oracle, action: Event)
    requires o.step == Act(action) && action.OtherAction?
    ensures StepAgent(p, o)
            == if p.c.agentState == RUNNING && p.c.pending.None? then Emit(p, action, action.head.source) else p
  {
  }

  lemma RecallIsAnswered(p: Pair, observed: Event, o: Oracle)
    requires p.c.agentState == RUNNING && p.c.pending.Some? && p.c.delegate.None?
    requires AnswersRecall(observed, p.c.pending.value.head.id) && o.step.Act? && o.step.action.OtherAction?
    ensures var done := Handle(p, observed, o);
      && done.c == AddHistory(p.c, observed).(pending := None)
      && done.stream == p.stream + [Numbered(p.stream, o.step.action, o.step.action.head.source)]
  {
    var handled := HandleObservation(p.(c := AddHistory(p.c, observed)), observed);
    assert handled == Pair(AddHistory(p.c, observed).(pending := None), p.stream);
    WakesExactly(handled.c, observed);
    SendsExactly(handled, o, o.step.action);
  }

  /**
   From a user's message through the recall it asks for to the agent's next action: the recall is sent
   and awaited, its observation settles it, and then the agent acts, once.
   */
  lemma MessageRoundTrip(p: Pair, message: Event, o: Oracle, observed: Event, o': Oracle)
    requires message.Message? && message.head.source == FromUser && !message.head.hidden && p.c.delegate.None?
    requires AnswersRecall(observed, |p.stream|) && o'.step.Act? && o'.step.action.OtherAction?
    ensures var asked := Handle(p, message, o);
      var done := Handle(asked, observed, o');
      var n := |p.stream|;
      && asked.c.agentState == RUNNING && asked.c.pending.Some? && asked.c.pending.value == asked.stream[n]
      && asked.stream[n].Recall? && asked.stream[n].head.source == FromUser
      && |asked.stream| == n + (if p.c.agentState == RUNNING then 1 else 2)
      && done.c.agentState == RUNNING && done.c.pending.None?
      && done.stream == asked.stream + [Numbered(asked.stream, o'.step.action, o'.step.action.head.source)]
  {
    MessageIsAsked(p, message, o);
    RecallIsAnswered(Handle(p, message, o), observed, o');
  }

  /** Which state an action of the user or the agent leads to. */
  lemma CommandsLeadTo(p: Pair, e: Event, o: Oracle)
    ensures e.ChangeAgentState? ==> HandleAction(p, e, o).c.agentState == e.target
    ensures e.Finish? ==> HandleAction(p, e, o).c.agentState == FINISHED
    ensures e.Reject? ==> HandleAction(p, e, o).c.agentState == REJECTED
    ensures e.LoopRecovery? && o.loopStart.Some? && e.option == 1 ==>
      HandleAction(p, e, o).c.agentState == AWAITING_USER_INPUT
    ensures e.LoopRecovery? && o.loopStart.Some? && e.option == 2 ==>
      HandleAction(p, e, o).c.agentState
      == if exists m :: m in p.c.history && m.Message? && m.head.source == FromUser then RUNNING else AWAITING_USER_INPUT
    ensures e.LoopRecovery? && o.loopStart.Some? && e.option == 3 ==> HandleAction(p, e, o).c.agentState == STOPPED
    ensures e.LoopRecovery? && (o.loopStart.None? || e.option < 1 || e.option > 3) ==> HandleAction(p, e, o) == p
  {
    if e.ChangeAgentState? {
      AfterSetAgentState(p, e.target);
    } else if e.Finish? {
      AfterSetAgentState(p, FINISHED);
    } else if e.Reject? {
      AfterSetAgentState(p, REJECTED);
    } else if e.LoopRecovery? && o.loopStart.Some? {
      RecoveringWaits(p, o.loopStart.value);
      RestartingAsksAgain(p, o.loopStart.value);
      AfterSetAgentState(p, STOPPED);
    }
  }

  // ----- the agent's step -----

  /** What the handling of an event comes to before the agent may act. */
  function Handled(p: Pair, e: Event, o: Oracle): Pair {
    var p1 := if Included(e) then p.(c := p.c.(history := p.c.history + [e])) else p;
    if IsObservation(e) then HandleObservation(p1, e) else HandleAction(p1, e, o)
  }

  /**
   The agent acts after an event exactly if the event was not hidden and wakes it, and the controller
   is then running, without a pending action and without a delegate.
   */
  lemma ActsExactly(p: Pair, e: Event, o: Oracle, action: Event)
    requires o.step == Act(action) && action.OtherAction?
    ensures var q, h := Handle(p, e, o), Handled(p, e, o);
      var acts := !e.head.hidden && h.c.agentState == RUNNING && h.c.pending.None? && h.c.delegate.None? && Wakes(RUNNING, e);
      && (e.head.hidden ==> q == p)
      && (!e.head.hidden && !acts ==> q == h)
      && (acts ==> q == Emit(h, action, action.head.source))
  {
    WakesExactly(Handled(p, e, o).c, e);
    SendsExactly(Handled(p, e, o), o, action);
  }

  /** A step that yields neither an action nor a failure reports that in the stream, and changes nothing else. */
  lemma ReportsExactly(p: Pair, o: Oracle)
    requires p.c.agentState == RUNNING && p.c.pending.None? && (o.step.SoftError? || o.step.ContextTooLong?)
    ensures var q := StepAgent(p, o);
      && q.c == p.c && |q.stream| == |p.stream| + 1 && p.stream <= q.stream
      && (if o.step.SoftError? then q.stream[|p.stream|].ErrorObservation? else q.stream[|p.stream|].CondensationRequest?)
      && q.stream[|p.stream|].head.source == FromAgent
  {
  }

  predicate IsFailure(step: StepResult) {
    step.Stuck? || step.LimitHit? || step.RateLimited? || step.Raises?
  }

  lemma FailsAs(p: Pair, o: Oracle)
    requires p.c.agentState == RUNNING && p.c.pending.None? && IsFailure(o.step)
    ensures StepAgent(p, o)
            == SetAgentState(p.(c := p.c.(iterationLimitError := o.step.LimitHit? && o.step.iteration)),
                             if o.step.RateLimited? then RATE_LIMITED else ERROR)
  {
  }

  /**
   A step that fails ends the agent's run and shows it: in RATE_LIMITED if the provider refused, else
   in ERROR, and the controller remembers whether the iterations had run out.
   */
  lemma FailuresExactly(p: Pair, o: Oracle)
    requires p.c.agentState == RUNNING && p.c.pending.None? && IsFailure(o.step)
    ensures var q := StepAgent(p, o);
      var state := if o.step.RateLimited? then RATE_LIMITED else ERROR;
      && q.c == p.c.(agentState := state, iterationLimitError := o.step.LimitHit? && o.step.iteration)
      && |q.stream| == |p.stream| + 1 && p.stream <= q.stream && Shows(q.stream[|p.stream|], state)
  {
    FailsAs(p, o);
    var flagged := p.(c := p.c.(iterationLimitError := o.step.LimitHit? && o.step.iteration));
    ChangeShows(flagged, if o.step.RateLimited? then RATE_LIMITED else ERROR);
  }

  /** An agent that is not running, or has an action pending, does not act at all. */
  lemma OthersWait(p: Pair, o: Oracle)
    requires p.c.agentState != RUNNING || p.c.pending.Some?
    ensures StepAgent(p, o) == p
  {
  }

  // ----- starting a delegate -----

  /**
   A delegate starts with nothing of its own and in neither confirmation mode, but with the parent's
   analyzer, and runs if it has a task.  The parent only gains the delegate.
   */
  lemma DelegateStartsExactly(p: Pair, hasTask: bool, o: Oracle)
    ensures var q := StartDelegate(p, hasTask, o);
      && q.c.delegate.Some? && q.c == p.c.(delegate := q.c.delegate)
      && var d := q.c.delegate.value;
         && d.agentState == (if hasTask then RUNNING else LOADING)
         && d.history == [] && d.pending.None? && d.delegate.None?
         && !d.confirmationMode && !d.stateConfirmationMode && !d.iterationLimitError
         && d.cliMode == o.delegateCliMode && d.hasAnalyzer == p.c.hasAnalyzer
  {
    var p1 := if o.delegateHasSystemMessage then Emit(p, SystemMessage(NewHead(FromAgent)), FromAgent) else p;
    var p2 := Emit(p1, Message(NewHead(FromUser), false), FromUser);
    ChangeShows(Pair(NewDelegate(p.c, o.delegateCliMode), p2.stream), RUNNING);
  }

  /** What the stream shows of it: its system message, if it has one, then its task as a user's message, and that it runs. */
  lemma DelegateStartShows(p: Pair, hasTask: bool, o: Oracle)
    ensures var q := StartDelegate(p, hasTask, o).stream;
      var n := |p.stream|;
      var m := if o.delegateHasSystemMessage then n + 1 else n;
      && |q| == (if hasTask then m + 2 else m) && p.stream <= q
      && (o.delegateHasSystemMessage ==> q[n].SystemMessage? && q[n].head.source == FromAgent)
      && (hasTask ==> q[m].Message? && q[m].head.source == FromUser && !q[m].waitForResponse && Shows(q[m + 1], RUNNING))
  {
    var p1 := if o.delegateHasSystemMessage then Emit(p, SystemMessage(NewHead(FromAgent)), FromAgent) else p;
    var p2 := Emit(p1, Message(NewHead(FromUser), false), FromUser);
    ChangeShows(Pair(NewDelegate(p.c, o.delegateCliMode), p2.stream), RUNNING);
  }
}

/** The agent controller over its event stream: every handler does what the model says. */
module AgentController {
  import opened Wrappers
  import opened M = ControllerModel
  import opened ControllerSafety

  class EventStream {
    var events: seq<Event>

    constructor ()
      ensures events == []
    {
      events := [];
    }

    /** add_event: number the event and append the copy of it that subscribers get. */
    method AddEvent(e: Event, source: Source) returns (numbered: Event)
      modifies this
      ensures numbered == Numbered(old(events), e, source)
      ensures events == old(events) + [Wire(numbered)]
    {
      numbered := e.(head := e.head.(id := |events|, source := source));
      events := events + [Wire(numbered)];
    }

    /** _is_awaiting_observation, which reads the stream backwards. */
    method IsAwaiting() returns (awaiting: bool)
      ensures awaiting <==> IsAwaitingObservation(events)
    {
      var i := |events|;
      assert events[..i] == events;
      while i > 0
        invariant 0 <= i <= |events|
        invariant IsAwaitingObservation(events) <==> IsAwaitingObservation(events[..i])
      {
        assert events[..i][..i - 1] == events[..i - 1];
        i := i - 1;
        if events[i].StateChanged? {
          return events[i].state == RUNNING;
        }
      }
      return false;
    }
  }

  class AgentController {
    const eventStream: EventStream
    const cliMode: bool
    const hasAnalyzer: bool
    const confirmationMode: bool
    const stateConfirmationMode: bool
    var agentState: AgentState
    var pendingAction: Option<Event>
    var history: seq<Event>
    var iterationLimitError: bool
    var delegate: AgentController?
    ghost var delegateView: Option<Controller>
    ghost var Repr: set<object>

    ghost predicate Valid()
      reads this, Repr
      decreases Repr
    {
      && this in Repr && eventStream !in Repr
      && (delegate != null ==>
            && delegate in Repr && delegate.Repr <= Repr && this !in delegate.Repr
            && delegate.eventStream == eventStream && delegate.Valid())
      && delegateView == if delegate == null then None else Some(delegate.View())
    }

    ghost function View(): Controller
      reads this
    {
      M.Controller(agentState, pendingAction, history, confirmationMode, stateConfirmationMode, cliMode, hasAnalyzer,
                   iterationLimitError, delegateView)
    }

    ghost function Now(): Pair
      reads this, eventStream
    {
      Pair(View(), eventStream.events)
    }

    constructor (stream: EventStream, confirmationMode: bool, stateConfirmationMode: bool, cliMode: bool, hasAnalyzer: bool)
      ensures Valid() && fresh(Repr) && eventStream == stream && delegate == null
      ensures View() == M.Controller(LOADING, None, [], confirmationMode, stateConfirmationMode, cliMode, hasAnalyzer, false, None)
    {
      eventStream := stream;
      this.cliMode, this.hasAnalyzer := cliMode, hasAnalyzer;
      this.confirmationMode, this.stateConfirmationMode := confirmationMode, stateConfirmationMode;
      agentState, pendingAction, history, iterationLimitError, delegate := LOADING, None, [], false, null;
      delegateView := None;
      Repr := {this};
    }

    /** Look through the history for an observation with this tool call metadata. */
    method FindObservation(toolCall: Option<int>) returns (found: bool)
      ensures found <==> Observed(history, toolCall)
    {
      var i := 0;
      while i < |history|
        invariant 0 <= i <= |history|
        invariant !Observed(history[..i], toolCall)
      {
        if IsObservation(history[i]) && history[i].head.toolCall == toolCall {
          return true;
        }
        assert history[..i + 1] == history[..i] + [history[i]];
        i := i + 1;
      }
      assert history[..i] == history;
      return false;
    }

    /** _reset. */
    method Reset()
      modifies this`pendingAction, eventStream
      ensures Now() == M.Reset(old(Now()))
    {
      if pendingAction.Some? {
        var found := FindObservation(pendingAction.value.head.toolCall);
        if !found {
          var _ := eventStream.AddEvent(NotExecuted(pendingAction.value), FromAgent);
        }
      }
      pendingAction := None;
    }

    /** The pending action is sent again with the user's decision. */
    method SendDecision(confirmation: Confirmation)
      requires pendingAction.Some?
      modifies this`pendingAction, eventStream
      ensures Now() == Decide(old(Now()), confirmation)
    {
      var sent := eventStream.AddEvent(WithConfirmation(pendingAction.value, confirmation), FromAgent);
      pendingAction := Some(sent);
    }

    /** What set_agent_state_to does before it shows the new state. */
    method EnterState(state: AgentState)
      requires state != agentState
      modifies this`agentState, this`pendingAction, eventStream
      ensures Now() == BeforeShowing(old(Now()), state)
    {
      agentState := state;
      if state == STOPPED || state == ERROR {
        Reset();
      }
      if pendingAction.Some? {
        if state == USER_CONFIRMED {
          SendDecision(Confirmed);
        } else if state == USER_REJECTED {
          SendDecision(Rejected);
        }
      }
    }

    /** set_agent_state_to. */
    method SetAgentStateTo(state: AgentState)
      modifies this`agentState, this`pendingAction, eventStream
      ensures Now() == SetAgentState(old(Now()), state)
    {
      if state == agentState {
        return;
      }
      SetAgentStateSplits(Now(), state);
      EnterState(state);
      var _ := eventStream.AddEvent(StateChanged(NewHead(FromEnvironment), state), FromEnvironment);
    }

    /** _handle_observation. */
    method HandleObservation(observation: Event)
      modifies this`agentState, this`pendingAction, eventStream
      ensures Now() == M.HandleObservation(old(Now()), observation)
    {
      if pendingAction.Some? && Some(pendingAction.value.head.id) == observation.head.cause {
        if agentState == AWAITING_USER_CONFIRMATION {
          return;
        }
        pendingAction := None;
        if agentState == USER_CONFIRMED {
          SetAgentStateTo(RUNNING);
        } else if agentState == USER_REJECTED {
          SetAgentStateTo(AWAITING_USER_INPUT);
        }
      }
    }

    /** _handle_message_action. */
    method HandleMessageAction(message: Event)
      requires message.Message?
      modifies this`agentState, this`pendingAction, eventStream
      ensures Now() == HandleMessage(old(Now()), message)
    {
      if message.head.source.FromUser? {
        var recall := eventStream.AddEvent(Recall(NewHead(FromUser)), FromUser);
        pendingAction := Some(recall);
        if agentState != RUNNING {
          SetAgentStateTo(RUNNING);
        }
      } else if message.head.source.FromAgent? {
        if message.waitForResponse {
          SetAgentStateTo(AWAITING_USER_INPUT);
        }
      }
    }

    /** _truncate_memory_to_point. */
    method TruncateMemory(point: nat)
      modifies this`history
      ensures Now() == old(Now()).(c := Truncate(old(View()), point))
    {
      if point < |history| {
        history := history[..point];
      }
    }

    /** _perform_loop_recovery. */
    method PerformLoopRecovery(point: nat)
      modifies this`history, this`agentState, this`pendingAction, eventStream
      ensures Now() == RecoverFromLoop(old(Now()), point)
    {
      TruncateMemory(point);
      SetAgentStateTo(AWAITING_USER_INPUT);
      var _ := eventStream.AddEvent(LoopDetection(NewHead(FromEnvironment)), FromEnvironment);
    }

    /** The latest user message in the history, looked for from the end. */
    method FindUserMessage() returns (found: bool)
      ensures found <==> HasUserMessage(history)
    {
      var i := |history|;
      while i > 0
        invariant 0 <= i <= |history|
        invariant forall j :: i <= j < |history| ==> !IsUserMessage(history[j])
      {
        i := i - 1;
        if IsUserMessage(history[i]) {
          return true;
        }
      }
      return false;
    }

    /** _restart_with_last_user_message. */
    method RestartWithLastUserMessage(point: nat)
      modifies this`history, this`agentState, this`pendingAction, eventStream
      ensures Now() == RestartWithLastMessage(old(Now()), point)
    {
      var found := FindUserMessage();
      if found {
        TruncateMemory(point);
        SetAgentStateTo(RUNNING);
        var _ := eventStream.AddEvent(LoopDetection(NewHead(FromEnvironment)), FromEnvironment);
        HandleMessageAction(Message(NewHead(FromUser), false));
      } else {
        PerformLoopRecovery(point);
      }
    }

    /** The controller that start_delegate creates, with its system message. */
    method CreateDelegate(o: Oracle) returns (d: AgentController)
      modifies eventStream
      ensures d.Valid() && fresh(d.Repr) && d.eventStream == eventStream && d.View() == NewDelegate(View(), o.delegateCliMode)
      ensures eventStream.events ==
        (if o.delegateHasSystemMessage then Emit(old(Now()), SystemMessage(NewHead(FromAgent)), FromAgent) else old(Now())).stream
    {
      if o.delegateHasSystemMessage {
        var _ := eventStream.AddEvent(SystemMessage(NewHead(FromAgent)), FromAgent);
      }
      d := new AgentController(eventStream, false, false, o.delegateCliMode, hasAnalyzer);
    }

    /** Give the delegate its task and set it running. */
    method AssignTask(d: AgentController)
      requires d.Valid() && d.eventStream == eventStream
      modifies d`agentState, d`pendingAction, eventStream
      ensures d.Valid()
      ensures d.Now() == SetAgentState(Emit(old(d.Now()), Message(NewHead(FromUser), false), FromUser), RUNNING)
    {
      var _ := eventStream.AddEvent(Message(NewHead(FromUser), false), FromUser);
      d.SetAgentStateTo(RUNNING);
    }

    /** The delegate takes its place under this controller. */
    method Adopt(d: AgentController)
      requires d.Valid() && d.eventStream == eventStream && this !in d.Repr
      modifies this`delegate, this`delegateView, this`Repr
      ensures Valid() && Repr == {this} + d.Repr && Now() == old(Now().(c := View().(delegate := Some(d.View()))))
    {
      delegate := d;
      delegateView := Some(d.View());
      Repr := {this} + d.Repr;
    }

    /** The new delegate, already at its task if there is one. */
    method LaunchDelegate(hasTask: bool, o: Oracle) returns (d: AgentController)
      modifies eventStream
      ensures d.Valid() && fresh(d.Repr) && d.eventStream == eventStream
      ensures M.StartDelegate(old(Now()), hasTask, o) == Now().(c := View().(delegate := Some(d.View())))
    {
      d := CreateDelegate(o);
      if hasTask {
        AssignTask(d);
      }
    }

    /** start_delegate, with the user message that follows it. */
    method StartDelegate(hasTask: bool, o: Oracle)
      requires Valid()
      modifies this`delegate, this`delegateView, this`Repr, eventStream
      ensures Valid() && fresh(Repr - old(Repr)) && Now() == M.StartDelegate(old(Now()), hasTask, o)
    {
      var d := LaunchDelegate(hasTask, o);
      Adopt(d);
    }

    /** _handle_loop_recovery_action. */
    method HandleLoopRecoveryAction(option: int, loopStart: Option<nat>)
      modifies this`history, this`agentState, this`pendingAction, eventStream
      ensures Now() == HandleLoopRecovery(old(Now()), option, loopStart)
    {
      if loopStart.Some? {
        if option == 1 {
          PerformLoopRecovery(loopStart.value);
        } else if option == 2 {
          RestartWithLastUserMessage(loopStart.value);
        } else if option == 3 {
          SetAgentStateTo(STOPPED);
        }
      }
    }

    /** The actions that a controller handles by itself. */
    method HandleOwnAction(action: Event, o: Oracle)
      requires !action.Delegate?
      modifies this`history, this`agentState, this`pendingAction, eventStream
      ensures Now() == M.HandleAction(old(Now()), action, o)
    {
      match action {
        case ChangeAgentState(_, target) => SetAgentStateTo(target);
        case Message(_, _) => HandleMessageAction(action);
        case Finish(_) => SetAgentStateTo(FINISHED);
        case Reject(_) => SetAgentStateTo(REJECTED);
        case LoopRecovery(_, option) => HandleLoopRecoveryAction(option, o.loopStart);
        case _ =>
      }
    }

    /** _handle_action. */
    method HandleAction(action: Event, o: Oracle)
      requires Valid()
      modifies this, eventStream
      ensures Valid() && fresh(Repr - old(Repr)) && Now() == M.HandleAction(old(Now()), action, o)
    {
      if action.Delegate? {
        StartDelegate(action.hasTask, o);
      } else {
        HandleOwnAction(action, o);
      }
    }

    /** _react_to_exception. */
    method ReactToException(state: AgentState, iterationLimit: bool)
      modifies this`iterationLimitError, this`agentState, this`pendingAction, eventStream
      ensures Now() == Fail(old(Now()), state, iterationLimit)
    {
      iterationLimitError := iterationLimit;
      SetAgentStateTo(state);
    }

    /** The confirmation that a tool action needs before it is sent. */
    method AssessAction(action: Event, analyzed: Risk) returns (gated: Event)
      requires action.ToolAction?
      ensures gated == Gate(View(), action, analyzed)
    {
      gated := action;
      if stateConfirmationMode {
        gated := gated.(risk := if hasAnalyzer then analyzed else UNKNOWN);
        var isHighRisk := gated.risk == HIGH;
        var askForEveryAction := gated.risk == UNKNOWN && !hasAnalyzer;
        if cliMode {
          gated := gated.(confirmation := AwaitingConfirmation);
        } else if (isHighRisk || askForEveryAction) && confirmationMode {
          gated := gated.(confirmation := AwaitingConfirmation);
        }
      }
    }

    method AskUser(gated: Event)
      requires gated.ToolAction?
      modifies this`agentState, this`pendingAction, eventStream
      ensures Now() == Ask(old(Now()), gated)
    {
      pendingAction := Some(gated);
      if gated.confirmation == AwaitingConfirmation {
        SetAgentStateTo(AWAITING_USER_CONFIRMATION);
      }
    }

    /** The part of _step that deals with the action the agent has chosen. */
    method PerformAction(action: Event, analyzed: Risk)
      modifies this`agentState, this`pendingAction, eventStream
      ensures Now() == Perform(old(Now()), action, analyzed)
    {
      if action.NullAction? {
        return;
      }
      if action.ToolAction? {
        var gated := AssessAction(action, analyzed);
        AskUser(gated);
        var sent := eventStream.AddEvent(gated, gated.head.source);
        pendingAction := Some(sent);
      } else {
        var _ := eventStream.AddEvent(action, action.head.source);
      }
    }

    /** What an exception that leaves the agent's step makes the controller do. */
    method HandleException(o: Oracle)
      requires agentState == RUNNING && pendingAction.None? && !o.step.Act?
      modifies this`iterationLimitError, this`agentState, this`pendingAction, eventStream
      ensures Now() == StepAgent(old(Now()), o)
    {
      if o.step.SoftError? {
        var _ := eventStream.AddEvent(ErrorObservation(NewHead(FromAgent)), FromAgent);
      } else if o.step.ContextTooLong? {
        var _ := eventStream.AddEvent(CondensationRequest(NewHead(FromAgent)), FromAgent);
      } else {
        ReactToException(if o.step.RateLimited? then RATE_LIMITED else ERROR, o.step.LimitHit? && o.step.iteration);
      }
    }

    /** _step, with the exceptions that leave it handled. */
    method Step(o: Oracle)
      modifies this`iterationLimitError, this`agentState, this`pendingAction, eventStream
      ensures Now() == StepAgent(old(Now()), o)
    {
      if agentState != RUNNING {
        return;
      }
      if pendingAction.Some? {
        return;
      }
      if o.step.Act? {
        PerformAction(o.step.action, o.analyzed);
      } else {
        HandleException(o);
      }
    }

    method AddToHistory(e: Event)
      modifies this`history
      ensures Now() == old(Now()).(c := AddHistory(old(View()), e))
    {
      if Included(e) {
        history := history + [e];
      }
    }

    /** The event goes into the history, and is handled as an observation or an action. */
    method Dispatch(e: Event, o: Oracle)
      requires Valid()
      modifies this, eventStream
      ensures Valid() && fresh(Repr - old(Repr))
      ensures var p := old(Now()).(c := AddHistory(old(Now()).c, e));
        Now() == if IsObservation(e) then M.HandleObservation(p, e) else M.HandleAction(p, e, o)
    {
      AddToHistory(e);
      if IsObservation(e) {
        HandleObservation(e);
      } else {
        HandleAction(e, o);
      }
    }

    /** _on_event. */
    method HandleEvent(e: Event, o: Oracle)
      requires Valid()
      modifies this, eventStream
      ensures Valid() && fresh(Repr - old(Repr)) && Now() == Handle(old(Now()), e, o)
    {
      if e.head.hidden {
        return;
      }
      Dispatch(e, o);
      if delegate == null && WantsStep(agentState, e) {
        Step(o);
      }
    }

    /** The tool call metadata of the latest delegate action, looked for from the end of the history. */
    method FindDelegateCall() returns (toolCall: Option<int>)
      ensures toolCall == LastDelegateCall(history)
    {
      var i := |history|;
      assert history[..i] == history;
      while i > 0
        invariant 0 <= i <= |history|
        invariant LastDelegateCall(history) == LastDelegateCall(history[..i])
      {
        assert history[..i][..i - 1] == history[..i - 1];
        i := i - 1;
        if history[i].Delegate? {
          return history[i].head.toolCall;
        }
      }
      return None;
    }

    /** end_delegate. */
    method EndDelegate()
      requires Valid() && delegate != null
      modifies Repr, eventStream
      ensures Valid() && Repr == old(Repr) && Now() == M.EndDelegate(old(Now()))
    {
      delegate.SetAgentStateTo(STOPPED);
      var toolCall := FindDelegateCall();
      var _ := eventStream.AddEvent(DelegateObservation(NewHead(FromAgent).(toolCall := toolCall)), FromAgent);
      delegate := null;
      delegateView := None;
    }

    /** The delegate handles the event in the parent's place. */
    method Forward(e: Event, o: Oracle)
      requires Valid() && delegate != null
      modifies Repr, eventStream
      ensures Valid() && fresh(Repr - old(Repr))
      ensures var d := Handle(Pair(old(delegateView).value, old(eventStream.events)), e, o);
        Now() == Pair(old(View()).(delegate := Some(d.c)), d.stream)
    {
      delegate.HandleEvent(e, o);
      delegateView := Some(delegate.View());
      Repr := Repr + delegate.Repr;
    }

    /** on_event, the callback from the event stream. */
    method OnEvent(e: Event, o: Oracle)
      requires Valid()
      modifies Repr, eventStream
      ensures Valid() && fresh(Repr - old(Repr)) && Now() == M.OnEvent(old(Now()), e, o)
    {
      if delegate == null {
        HandleEvent(e, o);
      } else if (delegate.agentState != FINISHED && delegate.agentState != ERROR && delegate.agentState != REJECTED)
             || delegate.iterationLimitError {
        assert Forwards(delegateView.value);
        Forward(e, o);
      } else {
        EndDelegate();
      }
    }
  }
}

/**
 What an agent controller does with one event: its own state, the events it appends to the shared
 stream, and the delegate to which it hands the stream over.  Handlers run one at a time, so each
 is a function from the state before to the state after.  What the agent, the stuck detector and
 the security analyzer answer is given by an oracle.
 */
module ControllerModel {
  import opened Wrappers

  datatype AgentState =
    | LOADING | RUNNING | AWAITING_USER_INPUT | PAUSED | STOPPED | FINISHED | REJECTED | ERROR
    | AWAITING_USER_CONFIRMATION | USER_CONFIRMED | USER_REJECTED | RATE_LIMITED

  datatype Source = FromAgent | FromUser | FromEnvironment

  datatype Confirmation = Unset | Confirmed | Rejected | AwaitingConfirmation

  datatype Risk = UNKNOWN | LOW | MEDIUM | HIGH

  /** The runnable action types, all of which are subject to confirmation. */
  datatype Tool = CmdRun | IPythonRunCell | BrowseInteractive | BrowseURL | FileEdit | FileRead | FileWrite | MCP

  const INVALID_ID := -1

  /** The attributes every event has; `toolCall` identifies the tool call metadata, if any. */
  datatype Head = Head(id: int, source: Source, cause: Option<int>, toolCall: Option<int>, hidden: bool)

  datatype Event =
    | ToolAction(head: Head, tool: Tool, payload: int, confirmation: Confirmation, risk: Risk)
    | Message(head: Head, waitForResponse: bool)
    | SystemMessage(head: Head)
    | ChangeAgentState(head: Head, target: AgentState)
    | Delegate(head: Head, hasTask: bool)
    | Finish(head: Head)
    | Reject(head: Head)
    | LoopRecovery(head: Head, option: int)
    | Recall(head: Head)
    | Condensation(head: Head)
    | CondensationRequest(head: Head)
    | NullAction(head: Head)
    | OtherAction(head: Head)
    | StateChanged(head: Head, state: AgentState)
    | NullObservation(head: Head)
    | DelegateObservation(head: Head)
    | ErrorObservation(head: Head)
    | LoopDetection(head: Head)
    | OtherObservation(head: Head)

  predicate IsObservation(e: Event) {
    e.StateChanged? || e.NullObservation? || e.DelegateObservation? || e.ErrorObservation? || e.LoopDetection? || e.OtherObservation?
  }

  /** A new event, not yet in the stream. */
  function NewHead(source: Source): Head {
    Head(INVALID_ID, source, None, None, false)
  }

  /** Only these two types declare a confirmation state, so only they keep it when written to the stream. */
  predicate KeepsConfirmation(tool: Tool) {
    tool == CmdRun || tool == IPythonRunCell
  }

  /** The copy of an event that the stream stores and hands to its subscribers. */
  function Wire(e: Event): Event {
    if e.ToolAction? && !KeepsConfirmation(e.tool) then e.(confirmation := Unset) else e
  }

  /** The runtime runs an action from the stream unless it awaits confirmation or was rejected. */
  predicate Executable(e: Event) {
    e.ToolAction? && e.confirmation != AwaitingConfirmation && e.confirmation != Rejected
  }

  datatype Controller = Controller(
    agentState: AgentState,
    pending: Option<Event>,
    history: seq<Event>,
    confirmationMode: bool,
    stateConfirmationMode: bool,
    cliMode: bool,
    hasAnalyzer: bool,
    iterationLimitError: bool,
    delegate: Option<Controller>)

  /** A controller together with the stream it shares. */
  datatype Pair = Pair(c: Controller, stream: seq<Event>)

  datatype StepResult =
    | Act(action: Event)
    | SoftError
    | ContextTooLong
    | Stuck
    | LimitHit(iteration: bool)
    | RateLimited
    | Raises

  datatype Oracle = Oracle(
    step: StepResult,
    loopStart: Option<nat>,
    analyzed: Risk,
    delegateHasSystemMessage: bool,
    delegateCliMode: bool)

  /** add_event: the event gets the next id and the given source, and a copy of it is appended. */
  function Numbered(stream: seq<Event>, e: Event, source: Source): Event {
    e.(head := e.head.(id := |stream|, source := source))
  }

  function Emit(p: Pair, e: Event, source: Source): (p': Pair)
    ensures p.stream <= p'.stream && p'.c == p.c
  {
    p.(stream := p.stream + [Wire(Numbered(p.stream, e, source))])
  }

  // ----- agent state -----

  /** Whether the history holds an observation with this tool call metadata. */
  predicate Observed(history: seq<Event>, toolCall: Option<int>) {
    exists i :: 0 <= i < |history| && IsObservation(history[i]) && history[i].head.toolCall == toolCall
  }

  function NotExecuted(action: Event): Event {
    ErrorObservation(NewHead(FromAgent).(toolCall := action.head.toolCall, cause := Some(action.head.id)))
  }

  /** _reset: give the pending action the observation it lacks, and forget it. */
  function Reset(p: Pair): (p': Pair)
    ensures p.stream <= p'.stream
  {
    var repaired :=
      if p.c.pending.Some? && !Observed(p.c.history, p.c.pending.value.head.toolCall)
      then Emit(p, NotExecuted(p.c.pending.value), FromAgent)
      else p;
    repaired.(c := p.c.(pending := None))
  }

  function WithConfirmation(e: Event, confirmation: Confirmation): Event {
    if e.ToolAction? then e.(confirmation := confirmation) else e
  }

  /** The pending action is sent again, now confirmed or rejected. */
  function Decide(p: Pair, confirmation: Confirmation): (p': Pair)
    requires p.c.pending.Some?
    ensures p.stream <= p'.stream
  {
    var decided := WithConfirmation(p.c.pending.value, confirmation);
    Emit(p, decided, FromAgent).(c := p.c.(pending := Some(Numbered(p.stream, decided, FromAgent))))
  }

  /** set_agent_state_to. */
  function SetAgentState(p: Pair, state: AgentState): (p': Pair)
    ensures p.stream <= p'.stream
  {
    if state == p.c.agentState then p
    else
      var p1 := p.(c := p.c.(agentState := state));
      var p2 := if state == STOPPED || state == ERROR then Reset(p1) else p1;
      var p3 :=
        if p2.c.pending.Some? && state == USER_CONFIRMED then Decide(p2, Confirmed)
        else if p2.c.pending.Some? && state == USER_REJECTED then Decide(p2, Rejected)
        else p2;
      Emit(p3, StateChanged(NewHead(FromEnvironment), state), FromEnvironment)
  }

  // ----- handlers -----

  /** _handle_observation. */
  function HandleObservation(p: Pair, e: Event): (p': Pair)
    ensures p.stream <= p'.stream
  {
    if p.c.pending.Some? && Some(p.c.pending.value.head.id) == e.head.cause && p.c.agentState != AWAITING_USER_CONFIRMATION then
      var cleared := p.(c := p.c.(pending := None));
      if p.c.agentState == USER_CONFIRMED then SetAgentState(cleared, RUNNING)
      else if p.c.agentState == USER_REJECTED then SetAgentState(cleared, AWAITING_USER_INPUT)
      else cleared
    else p
  }

  /** _handle_message_action. */
  function HandleMessage(p: Pair, e: Event): (p': Pair)
    requires e.Message?
    ensures p.stream <= p'.stream
  {
    if e.head.source.FromUser? then
      var recall := Recall(NewHead(FromUser));
      var p1 := Emit(p, recall, FromUser).(c := p.c.(pending := Some(Numbered(p.stream, recall, FromUser))));
      if p1.c.agentState != RUNNING then SetAgentState(p1, RUNNING) else p1
    else if e.head.source.FromAgent? && e.waitForResponse then SetAgentState(p, AWAITING_USER_INPUT)
    else p
  }

  predicate IsUserMessage(e: Event) {
    e.Message? && e.head.source.FromUser?
  }

  predicate HasUserMessage(history: seq<Event>) {
    exists i :: 0 <= i < |history| && IsUserMessage(history[i])
  }

  /** _truncate_memory_to_point. */
  function Truncate(c: Controller, point: nat): Controller {
    if point >= |c.history| then c else c.(history := c.history[..point])
  }

  function RecoverFromLoop(p: Pair, point: nat): (p': Pair)
    ensures p.stream <= p'.stream
  {
    Emit(SetAgentState(p.(c := Truncate(p.c, point)), AWAITING_USER_INPUT), LoopDetection(NewHead(FromEnvironment)), FromEnvironment)
  }

  function RestartWithLastMessage(p: Pair, point: nat): (p': Pair)
    ensures p.stream <= p'.stream
  {
    if HasUserMessage(p.c.history) then
      var p1 := SetAgentState(p.(c := Truncate(p.c, point)), RUNNING);
      HandleMessage(Emit(p1, LoopDetection(NewHead(FromEnvironment)), FromEnvironment), Message(NewHead(FromUser), false))
    else RecoverFromLoop(p, point)
  }

  /** _handle_loop_recovery_action; without a stuck analysis nothing happens. */
  function HandleLoopRecovery(p: Pair, option: int, loopStart: Option<nat>): (p': Pair)
    ensures p.stream <= p'.stream
  {
    if loopStart.None? then p
    else if option == 1 then RecoverFromLoop(p, loopStart.value)
    else if option == 2 then RestartWithLastMessage(p, loopStart.value)
    else if option == 3 then SetAgentState(p, STOPPED)
    else p
  }

  /** A delegate starts without confirmation modes, whatever its parent has. */
  function NewDelegate(parent: Controller, cliMode: bool): Controller {
    Controller(LOADING, None, [], false, false, cliMode, parent.hasAnalyzer, false, None)
  }

  /** start_delegate and what follows it in _handle_action. */
  function StartDelegate(p: Pair, hasTask: bool, o: Oracle): (p': Pair)
    ensures p.stream <= p'.stream
  {
    var p1 := if o.delegateHasSystemMessage then Emit(p, SystemMessage(NewHead(FromAgent)), FromAgent) else p;
    var child := NewDelegate(p.c, o.delegateCliMode);
    if hasTask then
      var p2 := Emit(p1, Message(NewHead(FromUser), false), FromUser);
      var d := SetAgentState(Pair(child, p2.stream), RUNNING);
      Pair(p.c.(delegate := Some(d.c)), d.stream)
    else Pair(p.c.(delegate := Some(child)), p1.stream)
  }

  /** _handle_action. */
  function HandleAction(p: Pair, e: Event, o: Oracle): (p': Pair)
    ensures p.stream <= p'.stream
  {
    match e
    case ChangeAgentState(_, target) => SetAgentState(p, target)
    case Message(_, _) => HandleMessage(p, e)
    case Delegate(_, hasTask) => StartDelegate(p, hasTask, o)
    case Finish(_) => SetAgentState(p, FINISHED)
    case Reject(_) => SetAgentState(p, REJECTED)
    case LoopRecovery(_, option) => HandleLoopRecovery(p, option, o.loopStart)
    case _ => p
  }

  // ----- stepping the agent -----

  /** Whether an event calls for a step of an agent in this state. */
  predicate WantsStep(state: AgentState, e: Event) {
    match e
    case Message(head, _) => head.source.FromUser? || state != AWAITING_USER_INPUT
    case Delegate(_, _) => true
    case Condensation(_) => true
    case CondensationRequest(_) => true
    case NullObservation(head) => head.cause.Some? && head.cause.value > 0
    case StateChanged(_, _) => false
    case _ => IsObservation(e)
  }

  /** should_step. */
  predicate ShouldStep(c: Controller, e: Event) {
    c.delegate.None? && WantsStep(c.agentState, e)
  }

  /** _react_to_exception, which also records whether the error is the iteration limit. */
  function Fail(p: Pair, state: AgentState, iterationLimit: bool): (p': Pair)
    ensures p.stream <= p'.stream
  {
    SetAgentState(p.(c := p.c.(iterationLimitError := iterationLimit)), state)
  }

  /** Risk analysis and the decision whether to ask, for a tool action in confirmation mode. */
  function Gate(c: Controller, action: Event, analyzed: Risk): Event
    requires action.ToolAction?
  {
    if !c.stateConfirmationMode then action
    else
      var risk := if c.hasAnalyzer then analyzed else UNKNOWN;
      var assessed := action.(risk := risk);
      if c.cliMode || ((risk == HIGH || (risk == UNKNOWN && !c.hasAnalyzer)) && c.confirmationMode)
      then assessed.(confirmation := AwaitingConfirmation)
      else assessed
  }

  /** The action becomes the pending one, and if it needs an answer the agent waits for it. */
  function Ask(p: Pair, gated: Event): (p': Pair)
    requires gated.ToolAction?
    ensures p.stream <= p'.stream
  {
    var p1 := p.(c := p.c.(pending := Some(gated)));
    if gated.confirmation == AwaitingConfirmation then SetAgentState(p1, AWAITING_USER_CONFIRMATION) else p1
  }

  function Perform(p: Pair, action: Event, analyzed: Risk): (p': Pair)
    ensures p.stream <= p'.stream
  {
    if action.NullAction? then p
    else if action.ToolAction? then
      var gated := Gate(p.c, action, analyzed);
      var p1 := Ask(p, gated);
      Emit(p1, gated, gated.head.source).(c := p1.c.(pending := Some(Numbered(p1.stream, gated, gated.head.source))))
    else Emit(p, action, action.head.source)
  }

  /** _step, with the exceptions that leave it handled. */
  function StepAgent(p: Pair, o: Oracle): (p': Pair)
    ensures p.stream <= p'.stream
  {
    if p.c.agentState != RUNNING || p.c.pending.Some? then p
    else match o.step
      case Act(action) => Perform(p, action, o.analyzed)
      case SoftError => Emit(p, ErrorObservation(NewHead(FromAgent)), FromAgent)
      case ContextTooLong => Emit(p, CondensationRequest(NewHead(FromAgent)), FromAgent)
      case Stuck => Fail(p, ERROR, false)
      case LimitHit(iteration) => Fail(p, ERROR, iteration)
      case RateLimited => Fail(p, RATE_LIMITED, false)
      case Raises => Fail(p, ERROR, false)
  }

  /** The events that go into the history of a controller. */
  predicate Included(e: Event) {
    !e.head.hidden && !e.NullAction? && !e.NullObservation? && !e.ChangeAgentState? && !e.StateChanged?
  }

  function AddHistory(c: Controller, e: Event): Controller {
    if Included(e) then c.(history := c.history + [e]) else c
  }

  /** _on_event: one controller handles one event. */
  function Handle(p: Pair, e: Event, o: Oracle): (p': Pair)
    ensures p.stream <= p'.stream
  {
    if e.head.hidden then p
    else
      var p1 := p.(c := AddHistory(p.c, e));
      var p2 := if IsObservation(e) then HandleObservation(p1, e) else HandleAction(p1, e, o);
      if ShouldStep(p2.c, e) then StepAgent(p2, o) else p2
  }

  // ----- delegation -----

  /** Whether the delegate still gets the events; only the message of the iteration limit is recognised. */
  predicate Forwards(d: Controller) {
    (d.agentState != FINISHED && d.agentState != ERROR && d.agentState != REJECTED) || d.iterationLimitError
  }

  /** The tool call metadata of the latest delegate action in the history. */
  function LastDelegateCall(history: seq<Event>): Option<int> {
    if history == [] then None
    else if history[|history| - 1].Delegate? then history[|history| - 1].head.toolCall
    else LastDelegateCall(history[..|history| - 1])
  }

  /** end_delegate. */
  function EndDelegate(p: Pair): (p': Pair)
    requires p.c.delegate.Some?
    ensures p.stream <= p'.stream
  {
    var closed := SetAgentState(Pair(p.c.delegate.value, p.stream), STOPPED);
    var obs := DelegateObservation(NewHead(FromAgent).(toolCall := LastDelegateCall(p.c.history)));
    Emit(Pair(p.c.(delegate := None), closed.stream), obs, FromAgent)
  }

  /** on_event: the root controller is called for every event of the stream. */
  function OnEvent(p: Pair, e: Event, o: Oracle): (p': Pair)
    ensures p.stream <= p'.stream
  {
    if p.c.delegate.None? then Handle(p, e, o)
    else if Forwards(p.c.delegate.value) then
      var d := Handle(Pair(p.c.delegate.value, p.stream), e, o);
      Pair(p.c.(delegate := Some(d.c)), d.stream)
    else EndDelegate(p)
  }

  // ----- runs -----

  /** The stream, the root controller, and how many events of the stream it has been called for. */
  datatype World = World(stream: seq<Event>, root: Controller, cursor: nat)

  datatype Move =
    | Append(e: Event)
    | Process(o: Oracle)
    | SetState(state: AgentState)

  /** Someone else appends an event, the root is called for the next event, or its state is set directly. */
  function Next(w: World, move: Move): (w': World)
    ensures w.stream <= w'.stream
  {
    match move
    case Append(e) => w.(stream := w.stream + [e.(head := e.head.(id := |w.stream|))])
    case Process(o) =>
      if w.cursor < |w.stream| then
        var p := OnEvent(Pair(w.root, w.stream), w.stream[w.cursor], o);
        World(p.stream, p.c, w.cursor + 1)
      else w
    case SetState(state) =>
      var p := SetAgentState(Pair(w.root, w.stream), state);
      w.(stream := p.stream, root := p.c)
  }

  function Run(w: World, moves: seq<Move>): (w': World)
    ensures w.stream <= w'.stream
    decreases |moves|
  {
    if moves == [] then w else Run(Next(w, moves[0]), moves[1..])
  }
}

/** The stream over whole runs: every event's id is its position, and a pending action is where its id says. */
module ControllerStream {
  import opened Wrappers
  import opened ControllerModel
  import opened ControllerDelegation
  import opened ControllerPlan
  import opened ControllerSafety

  predicate IdsArePositions(stream: seq<Event>) {
    forall i :: 0 <= i < |stream| ==> stream[i].head.id == i
  }

  /** The stream holds the copy of the controller's pending action, at the position that is its id. */
  predicate PendingSent(c: Controller, stream: seq<Event>) {
    c.pending.Some? ==> 0 <= c.pending.value.head.id < |stream| && stream[c.pending.value.head.id] == Wire(c.pending.value)
  }

  /** So for a controller and for its delegate. */
  predicate Recorded(p: Pair) {
    && IdsArePositions(p.stream) && PendingSent(p.c, p.stream)
    && (p.c.delegate.Some? ==> PendingSent(p.c.delegate.value, p.stream))
  }

  lemma EmitRecords(p: Pair, e: Event, source: Source)
    requires Recorded(p)
    ensures var q := Emit(p, e, source);
      && Recorded(q) && q.stream[|p.stream|] == Wire(Numbered(p.stream, e, source))
      && Recorded(q.(c := p.c.(pending := Some(Numbered(p.stream, e, source)))))
  {
  }

  lemma BeforeShowingRecords(p: Pair, state: AgentState)
    requires Recorded(p)
    ensures Recorded(BeforeShowing(p, state))
  {
    var p1 := p.(c := p.c.(agentState := state));
    if Halted(state) && p.c.pending.Some? {
      EmitRecords(p1, NotExecuted(p.c.pending.value), FromAgent);
    } else if p.c.pending.Some? && (state == USER_CONFIRMED || state == USER_REJECTED) {
      var answer := if state == USER_CONFIRMED then Confirmed else Rejected;
      EmitRecords(p1, WithConfirmation(p.c.pending.value, answer), FromAgent);
    }
  }

  lemma BecomeRecords(p: Pair, state: AgentState)
    requires Recorded(p)
    ensures Recorded(SetAgentState(p, state))
  {
    if state != p.c.agentState {
      SetAgentStateSplits(p, state);
      BeforeShowingRecords(p, state);
      EmitRecords(BeforeShowing(p, state), StateChanged(NewHead(FromEnvironment), state), FromEnvironment);
    }
  }

  lemma RecallRecords(p: Pair)
    requires Recorded(p)
    ensures Recorded(Apply(p, AskRecall))
  {
    var recall := Recall(NewHead(FromUser));
    EmitRecords(p, recall, FromUser);
    BecomeRecords(Emit(p, recall, FromUser).(c := p.c.(pending := Some(Numbered(p.stream, recall, FromUser)))), RUNNING);
  }

  /** While the user is being asked the action is pending before it is sent, which only the change of state comes between. */
  lemma AskRecords(p: Pair, gated: Event)
    requires Recorded(p) && gated.ToolAction?
    ensures Recorded(Ask(p, gated).(c := Ask(p, gated).c.(pending := None)))
  {
    var unasked := p.(c := p.c.(pending := None));
    BecomeRecords(unasked, AWAITING_USER_CONFIRMATION);
    assert Ask(p, gated).stream == (if gated.confirmation == AwaitingConfirmation then SetAgentState(unasked, AWAITING_USER_CONFIRMATION) else unasked).stream;
  }

  lemma UseRecords(p: Pair, action: Event, analyzed: Risk)
    requires Recorded(p) && action.ToolAction?
    ensures Recorded(Perform(p, action, analyzed))
  {
    var gated := Gate(p.c, action, analyzed);
    var asked := Ask(p, gated);
    AskRecords(p, gated);
    AfterSetAgentState(p.(c := p.c.(pending := Some(gated))), AWAITING_USER_CONFIRMATION);
    EmitRecords(asked.(c := asked.c.(pending := None)), gated, gated.head.source);
  }

  /** A longer stream still holds what it held. */
  lemma StillSent(c: Controller, stream: seq<Event>, longer: seq<Event>)
    requires PendingSent(c, stream) && stream <= longer
    ensures PendingSent(c, longer)
  {
  }

  lemma AdoptRecords(p: Pair, child: Pair)
    requires Recorded(p) && Recorded(child) && p.stream <= child.stream
    ensures Recorded(Pair(p.c.(delegate := Some(child.c)), child.stream))
  {
    StillSent(p.c, p.stream, child.stream);
  }

  /** The delegate with its task, before it takes its place. */
  function WithTask(p: Pair, o: Oracle): Pair {
    SetAgentState(Pair(NewDelegate(p.c, o.delegateCliMode), Emit(p, Message(NewHead(FromUser), false), FromUser).stream), RUNNING)
  }

  lemma TaskRecords(p: Pair, o: Oracle)
    requires Recorded(p)
    ensures Recorded(WithTask(p, o)) && p.stream <= WithTask(p, o).stream
  {
    EmitRecords(p, Message(NewHead(FromUser), false), FromUser);
    BecomeRecords(Pair(NewDelegate(p.c, o.delegateCliMode), Emit(p, Message(NewHead(FromUser), false), FromUser).stream), RUNNING);
  }

  lemma SpawnRecords(p: Pair, hasTask: bool, o: Oracle)
    requires Recorded(p)
    ensures Recorded(StartDelegate(p, hasTask, o))
  {
    EmitRecords(p, SystemMessage(NewHead(FromAgent)), FromAgent);
    var p1 := if o.delegateHasSystemMessage then Emit(p, SystemMessage(NewHead(FromAgent)), FromAgent) else p;
    TaskRecords(p1, o);
    AdoptRecords(p, if hasTask then WithTask(p1, o) else Pair(NewDelegate(p.c, o.delegateCliMode), p1.stream));
  }

  lemma OperationRecords(p: Pair, a: Operation)
    requires Recorded(p) && Allowed(p, a)
    ensures Recorded(Apply(p, a))
  {
    match a
    case Become(state) => BecomeRecords(p, state);
    case AskRecall => RecallRecords(p);
    case Use(action, analyzed) => UseRecords(p, action, analyzed);
    case Spawn(hasTask, o) => SpawnRecords(p, hasTask, o);
    case Say(e, source) => EmitRecords(p, e, source);
    case Remember(_) =>
    case Settle =>
    case Forget(_) =>
    case Flag(_) =>
  }

  lemma HandleRecords(p: Pair, e: Event, o: Oracle)
    requires Recorded(p) && Sensible(o)
    ensures Recorded(Handle(p, e, o))
  {
    var recorded := (q: Pair) => Recorded(q);
    forall q, a | recorded(q) && Allowed(q, a) ensures recorded(Apply(q, a)) {
      OperationRecords(q, a);
    }
    HandleKeeps(recorded, p, e, o, true);
  }

  /** What a delegate needs to be recorded with its parent; its own delegate never acts. */
  predicate DelegateRecorded(p: Pair) {
    p.c.delegate.Some? && p.c.delegate.value.delegate.Some? ==> PendingSent(p.c.delegate.value.delegate.value, p.stream)
  }

  lemma EndRecords(p: Pair)
    requires Recorded(p) && DelegateRecorded(p) && p.c.delegate.Some?
    ensures Recorded(EndDelegate(p))
  {
    BecomeRecords(Pair(p.c.delegate.value, p.stream), STOPPED);
    var closed := SetAgentState(Pair(p.c.delegate.value, p.stream), STOPPED);
    StillSent(p.c, p.stream, closed.stream);
    var obs := DelegateObservation(NewHead(FromAgent).(toolCall := LastDelegateCall(p.c.history)));
    EmitRecords(Pair(p.c.(delegate := None), closed.stream), obs, FromAgent);
  }

  lemma OnEventRecords(p: Pair, e: Event, o: Oracle)
    requires Recorded(p) && DelegateRecorded(p) && Sensible(o)
    ensures Recorded(OnEvent(p, e, o)) && (p.c.delegate.Some? ==> DelegateRecorded(OnEvent(p, e, o)))
  {
    if p.c.delegate.None? {
      HandleRecords(p, e, o);
    } else if Forwards(p.c.delegate.value) {
      var d := Pair(p.c.delegate.value, p.stream);
      HandleRecords(d, e, o);
      StillSent(p.c, p.stream, Handle(d, e, o).stream);
    } else {
      EndRecords(p);
    }
  }

  predicate WorldRecorded(w: World) {
    Recorded(Pair(w.root, w.stream)) && DelegateRecorded(Pair(w.root, w.stream))
  }

  lemma AppendRecords(w: World, e: Event)
    requires WorldRecorded(w)
    ensures var next := Next(w, Append(e));
      && WorldRecorded(next) && |next.stream| == |w.stream| + 1 && w.stream <= next.stream
      && next.stream[|w.stream|].(head := e.head) == e && next.root == w.root && next.cursor == w.cursor
  {
    var next := Next(w, Append(e));
    StillSent(w.root, w.stream, next.stream);
    if w.root.delegate.Some? {
      StillSent(w.root.delegate.value, w.stream, next.stream);
      if w.root.delegate.value.delegate.Some? {
        StillSent(w.root.delegate.value.delegate.value, w.stream, next.stream);
      }
    }
  }

  /** A directly set state is the root's, whatever it was, and the stream shows it if it changes. */
  lemma SetStateShows(w: World, state: AgentState)
    ensures var next := Next(w, SetState(state));
      && next.root.agentState == state && next.cursor == w.cursor
      && (state == w.root.agentState ==> next == w)
      && (state != w.root.agentState ==>
            |next.stream| > |w.stream| && next.stream[|next.stream| - 1].StateChanged? && next.stream[|next.stream| - 1].state == state)
  {
    AfterSetAgentState(Pair(w.root, w.stream), state);
    if state != w.root.agentState {
      SetAgentStateSplits(Pair(w.root, w.stream), state);
    }
  }

  lemma NextRecords(w: World, move: Move)
    requires WorldRecorded(w) && SensibleMove(move)
    ensures WorldRecorded(Next(w, move))
  {
    var p := Pair(w.root, w.stream);
    match move
    case Append(e) => AppendRecords(w, e);
    case SetState(state) =>
      BecomeRecords(p, state);
      AfterSetAgentState(p, state);
      if w.root.delegate.Some? && w.root.delegate.value.delegate.Some? {
        StillSent(w.root.delegate.value.delegate.value, w.stream, SetAgentState(p, state).stream);
      }
    case Process(o) =>
      if w.cursor < |w.stream| {
        OnEventRecords(p, w.stream[w.cursor], o);
        if w.root.delegate.None? {
          HandleKeepsChildInert(p, w.stream[w.cursor], o);
        }
      }
  }

  /**
   Over every run, whoever appends and whatever fails, the id of every event is its position in the
   stream, and the stream holds the pending action of the root and of its delegate under its id.
   */
  lemma {:induction false} RunRecords(w: World, moves: seq<Move>)
    requires WorldRecorded(w) && SensibleMoves(moves)
    ensures WorldRecorded(Run(w, moves))
    decreases |moves|
  {
    if moves != [] {
      NextRecords(w, moves[0]);
      RunRecords(Next(w, moves[0]), moves[1..]);
    }
  }
}

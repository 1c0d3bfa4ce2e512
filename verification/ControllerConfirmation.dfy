/** Confirmation mode: which tool actions enter the stream ready to run, and after what. */
module ControllerConfirmation {
  import opened Wrappers
  import opened ControllerModel
  import opened ControllerPlan
  import opened ControllerSafety

  /** Confirmation mode is on, outside the CLI and without a security analyzer. */
  predicate Guarded(c: Controller) {
    c.confirmationMode && c.stateConfirmationMode && !c.cliMode && !c.hasAnalyzer
  }

  /** An action that a controller sent as confirmed. */
  predicate SentConfirmed(e: Event) {
    e.ToolAction? && KeepsConfirmation(e.tool) && e.confirmation == Confirmed && e.head.source.FromAgent?
  }

  /** `asked` is `action` as it was when it was still waiting for the user's answer. */
  predicate AwaitsAs(asked: Event, action: Event) {
    && asked.ToolAction? && action.ToolAction?
    && asked.confirmation == AwaitingConfirmation
    && asked.tool == action.tool && asked.payload == action.payload && asked.risk == action.risk
    && asked.head.toolCall == action.head.toolCall
  }

  /** The events of the stream that the root controller has sent itself, by position. */
  type Own = int -> bool

  /** The root asked about the action before position k. */
  ghost predicate AskedBefore(stream: seq<Event>, own: Own, k: nat, action: Event)
    requires k <= |stream|
  {
    exists j :: 0 <= j < k && own(j) && AwaitsAs(stream[j], action)
  }

  /**
   Every confirmed action that the root has sent comes after its awaiting copy and is directly
   followed by the change to USER_CONFIRMED during which it was the pending action.
   */
  ghost predicate ConfirmedOnlyIfAsked(stream: seq<Event>, own: Own) {
    forall k :: 0 <= k < |stream| && own(k) && SentConfirmed(stream[k]) ==>
      && AskedBefore(stream, own, k, stream[k])
      && k + 1 < |stream| && stream[k + 1].StateChanged? && stream[k + 1].state == USER_CONFIRMED
  }

  /** A pending action whose type keeps its confirmation has been asked about. */
  ghost predicate PendingAsked(p: Pair, own: Own) {
    p.c.pending.Some? && p.c.pending.value.ToolAction? && KeepsConfirmation(p.c.pending.value.tool)
    ==> AskedBefore(p.stream, own, |p.stream|, p.c.pending.value)
  }

  ghost predicate GateInv(p: Pair, own: Own) {
    Guarded(p.c) && ConfirmedOnlyIfAsked(p.stream, own) && PendingAsked(p, own)
  }

  /** Whatever is appended now is the root's. */
  ghost predicate OwnFrom(own: Own, from: nat) {
    forall i :: i >= from ==> own(i)
  }

  lemma AskedStays(stream: seq<Event>, longer: seq<Event>, own: Own, own': Own, k: nat, action: Event)
    requires stream <= longer && k <= |stream| && AskedBefore(stream, own, k, action)
    requires forall i :: 0 <= i < |stream| && own(i) ==> own'(i)
    ensures AskedBefore(longer, own', k, action) && AskedBefore(longer, own', |longer|, action)
  {
    var j :| 0 <= j < k && own(j) && AwaitsAs(stream[j], action);
    assert longer[j] == stream[j] && own'(j);
  }

  /** What others append, and what they claim, does not matter. */
  lemma OthersKeepGate(p: Pair, longer: seq<Event>, own: Own, own': Own)
    requires GateInv(p, own) && p.stream <= longer
    requires forall i :: 0 <= i < |p.stream| ==> (own'(i) <==> own(i))
    requires forall i :: |p.stream| <= i < |longer| ==> !own'(i)
    ensures GateInv(p.(stream := longer), own')
  {
    forall k | 0 <= k < |longer| && own'(k) && SentConfirmed(longer[k])
      ensures AskedBefore(longer, own', k, longer[k])
      ensures k + 1 < |longer| && longer[k + 1].StateChanged? && longer[k + 1].state == USER_CONFIRMED
    {
      assert longer[k] == p.stream[k] && longer[k + 1] == p.stream[k + 1];
      AskedStays(p.stream, longer, own, own', k, longer[k]);
    }
    if p.c.pending.Some? && AskedBefore(p.stream, own, |p.stream|, p.c.pending.value) {
      AskedStays(p.stream, longer, own, own', |p.stream|, p.c.pending.value);
    }
  }

  /** Anything but a confirmed action may be appended. */
  lemma AppendKeepsConfirmed(stream: seq<Event>, e: Event, own: Own)
    requires ConfirmedOnlyIfAsked(stream, own) && !SentConfirmed(e)
    ensures ConfirmedOnlyIfAsked(stream + [e], own)
  {
    forall k | 0 <= k < |stream + [e]| && own(k) && SentConfirmed((stream + [e])[k])
      ensures AskedBefore(stream + [e], own, k, (stream + [e])[k])
      ensures k + 1 < |stream| && (stream + [e])[k + 1] == stream[k + 1]
    {
      assert k < |stream| && stream[k] == (stream + [e])[k];
      AskedStays(stream, stream + [e], own, own, k, stream[k]);
    }
  }

  lemma EmitKeepsGate(p: Pair, e: Event, source: Source, own: Own)
    requires GateInv(p, own) && !SentConfirmed(Wire(Numbered(p.stream, e, source)))
    ensures GateInv(Emit(p, e, source), own)
  {
    var w := Wire(Numbered(p.stream, e, source));
    AppendKeepsConfirmed(p.stream, w, own);
    if p.c.pending.Some? && AskedBefore(p.stream, own, |p.stream|, p.c.pending.value) {
      AskedStays(p.stream, p.stream + [w], own, own, |p.stream|, p.c.pending.value);
    }
  }

  /** A confirmed action may be appended together with the change to USER_CONFIRMED. */
  lemma AppendConfirmed(stream: seq<Event>, sent: Event, shown: Event, own: Own)
    requires ConfirmedOnlyIfAsked(stream, own) && shown.StateChanged? && shown.state == USER_CONFIRMED
    requires SentConfirmed(sent) ==> AskedBefore(stream, own, |stream|, sent)
    ensures ConfirmedOnlyIfAsked(stream + [sent] + [shown], own)
  {
    var longer := stream + [sent] + [shown];
    assert longer[|stream|] == sent && longer[|stream| + 1] == shown;
    forall k | 0 <= k < |longer| && own(k) && SentConfirmed(longer[k])
      ensures AskedBefore(longer, own, k, longer[k])
      ensures k + 1 < |longer| && longer[k + 1].StateChanged? && longer[k + 1].state == USER_CONFIRMED
    {
      if k < |stream| {
        assert longer[k] == stream[k] && longer[k + 1] == stream[k + 1];
      }
      AskedStays(stream, longer, own, own, k, longer[k]);
    }
  }

  /** An action that has been asked about stays so when its confirmation is decided. */
  lemma DecidedWasAsked(stream: seq<Event>, action: Event, confirmation: Confirmation, id: int, own: Own)
    requires action.ToolAction? && AskedBefore(stream, own, |stream|, action)
    ensures AskedBefore(stream, own, |stream|, action.(confirmation := confirmation, head := action.head.(id := id, source := FromAgent)))
  {
    var j :| 0 <= j < |stream| && own(j) && AwaitsAs(stream[j], action);
    assert AwaitsAs(stream[j], action.(confirmation := confirmation, head := action.head.(id := id, source := FromAgent)));
  }

  /** Sending the confirmed action and showing the change to USER_CONFIRMED belong together. */
  lemma ConfirmKeepsGate(p: Pair, own: Own)
    requires GateInv(p, own) && p.c.pending.Some?
    ensures GateInv(Emit(Decide(p, Confirmed), StateChanged(NewHead(FromEnvironment), USER_CONFIRMED), FromEnvironment), own)
  {
    var numbered := Numbered(p.stream, WithConfirmation(p.c.pending.value, Confirmed), FromAgent);
    var sent := Wire(numbered);
    var shown := Wire(Numbered(p.stream + [sent], StateChanged(NewHead(FromEnvironment), USER_CONFIRMED), FromEnvironment));
    if numbered.ToolAction? && KeepsConfirmation(numbered.tool) {
      DecidedWasAsked(p.stream, p.c.pending.value, Confirmed, |p.stream|, own);
      AskedStays(p.stream, p.stream + [sent] + [shown], own, own, |p.stream|, numbered);
    }
    AppendConfirmed(p.stream, sent, shown, own);
  }

  lemma RejectKeepsGate(p: Pair, own: Own)
    requires GateInv(p, own) && p.c.pending.Some?
    ensures GateInv(Decide(p, Rejected), own)
  {
    var numbered := Numbered(p.stream, WithConfirmation(p.c.pending.value, Rejected), FromAgent);
    EmitKeepsGate(p, WithConfirmation(p.c.pending.value, Rejected), FromAgent, own);
    if numbered.ToolAction? && KeepsConfirmation(numbered.tool) {
      DecidedWasAsked(p.stream, p.c.pending.value, Rejected, |p.stream|, own);
      AskedStays(p.stream, p.stream + [Wire(numbered)], own, own, |p.stream|, numbered);
    }
  }

  lemma ShowKeepsGate(p1: Pair, state: AgentState, own: Own)
    requires GateInv(p1, own) && p1.c.agentState == state && !(p1.c.pending.Some? && state == USER_CONFIRMED)
    ensures GateInv(Emit(BeforeShowing(p1, state), StateChanged(NewHead(FromEnvironment), state), FromEnvironment), own)
  {
    var p2 := BeforeShowing(p1, state);
    if Halted(state) {
      if p1.c.pending.Some? {
        EmitKeepsGate(p1, NotExecuted(p1.c.pending.value), FromAgent, own);
      }
    } else if p1.c.pending.Some? && state == USER_REJECTED {
      RejectKeepsGate(p1, own);
    }
    assert p1.(c := p1.c.(agentState := state)) == p1;
    EmitKeepsGate(p2, StateChanged(NewHead(FromEnvironment), state), FromEnvironment, own);
  }

  lemma BecomeKeepsGate(p: Pair, state: AgentState, own: Own)
    requires GateInv(p, own)
    ensures GateInv(SetAgentState(p, state), own)
  {
    if state != p.c.agentState {
      SetAgentStateSplits(p, state);
      var p1 := p.(c := p.c.(agentState := state));
      assert GateInv(p1, own);
      if p1.c.pending.Some? && state == USER_CONFIRMED {
        ConfirmKeepsGate(p1, own);
      } else {
        ShowKeepsGate(p1, state, own);
      }
    }
  }

  lemma RecallKeepsGate(p: Pair, own: Own)
    requires GateInv(p, own)
    ensures GateInv(Apply(p, AskRecall), own)
  {
    var recall := Recall(NewHead(FromUser));
    EmitKeepsGate(p, recall, FromUser, own);
    BecomeKeepsGate(Emit(p, recall, FromUser).(c := p.c.(pending := Some(Numbered(p.stream, recall, FromUser)))), RUNNING, own);
  }

  /** In confirmation mode every tool action is asked about. */
  lemma GuardedAsks(c: Controller, action: Event, analyzed: Risk)
    requires Guarded(c) && action.ToolAction?
    ensures Gate(c, action, analyzed) == action.(risk := UNKNOWN, confirmation := AwaitingConfirmation)
  {
  }

  lemma UseKeepsGate(p: Pair, action: Event, analyzed: Risk, own: Own)
    requires GateInv(p, own) && Allowed(p, Use(action, analyzed)) && OwnFrom(own, |p.stream|)
    ensures GateInv(Perform(p, action, analyzed), own)
  {
    GuardedAsks(p.c, action, analyzed);
    var gated := Gate(p.c, action, analyzed);
    var waiting := SetAgentState(p, AWAITING_USER_CONFIRMATION);
    BecomeKeepsGate(p, AWAITING_USER_CONFIRMATION, own);
    var asked := Ask(p, gated);
    assert asked.stream == waiting.stream && asked.c == waiting.c.(pending := Some(gated));
    var w := Wire(Numbered(waiting.stream, gated, gated.head.source));
    AppendKeepsConfirmed(waiting.stream, w, own);
    var q := Perform(p, action, analyzed);
    assert q.stream == waiting.stream + [w];
    if KeepsConfirmation(gated.tool) {
      assert AwaitsAs(q.stream[|waiting.stream|], q.c.pending.value) && own(|waiting.stream|);
    }
  }

  lemma SpawnKeepsGate(p: Pair, hasTask: bool, o: Oracle, own: Own)
    requires GateInv(p, own)
    ensures GateInv(StartDelegate(p, hasTask, o), own)
  {
    var p1 := if o.delegateHasSystemMessage then Emit(p, SystemMessage(NewHead(FromAgent)), FromAgent) else p;
    EmitKeepsGate(p, SystemMessage(NewHead(FromAgent)), FromAgent, own);
    var p2 := Emit(p1, Message(NewHead(FromUser), false), FromUser);
    EmitKeepsGate(p1, Message(NewHead(FromUser), false), FromUser, own);
    var child := NewDelegate(p.c, o.delegateCliMode);
    SetAgentStateSplits(Pair(child, p2.stream), RUNNING);
    EmitKeepsGate(p2, StateChanged(NewHead(FromEnvironment), RUNNING), FromEnvironment, own);
    assert StartDelegate(p, hasTask, o).c == p.c.(delegate := StartDelegate(p, hasTask, o).c.delegate);
  }

  lemma OperationKeepsGate(p: Pair, a: Operation, own: Own)
    requires GateInv(p, own) && Allowed(p, a) && OwnFrom(own, |p.stream|)
    ensures GateInv(Apply(p, a), own)
  {
    match a
    case Become(state) => BecomeKeepsGate(p, state, own);
    case AskRecall => RecallKeepsGate(p, own);
    case Use(action, analyzed) => UseKeepsGate(p, action, analyzed, own);
    case Say(e, source) => EmitKeepsGate(p, e, source, own);
    case Spawn(hasTask, o) => SpawnKeepsGate(p, hasTask, o, own);
    case Remember(_) =>
    case Settle =>
    case Forget(_) =>
    case Flag(_) =>
  }

  lemma HandleKeepsGate(p: Pair, e: Event, o: Oracle, own: Own)
    requires GateInv(p, own) && Sensible(o) && OwnFrom(own, |p.stream|)
    ensures GateInv(Handle(p, e, o), own)
  {
    var gate := (q: Pair) => GateInv(q, own) && |q.stream| >= |p.stream|;
    forall q, a | gate(q) && Allowed(q, a) ensures gate(Apply(q, a)) {
      OperationKeepsGate(q, a, own);
    }
    HandleKeeps(gate, p, e, o, true);
  }

  // ----- whole runs -----

  /** The root itself handles the move: it has no delegate, or its state is set. */
  predicate RootActs(w: World, move: Move) {
    move.SetState? || (move.Process? && w.cursor < |w.stream| && w.root.delegate.None?)
  }

  /** The root's own events after the move, of which those from `from` to `to` are new. */
  function Extended(own: Own, acts: bool, from: nat, to: nat): Own {
    i => if i < from then own(i) else acts && i < to
  }

  function OwnAfter(w: World, moves: seq<Move>, own: Own): Own
    decreases |moves|
  {
    if moves == [] then own
    else
      var next := Next(w, moves[0]);
      OwnAfter(next, moves[1..], Extended(own, RootActs(w, moves[0]), |w.stream|, |next.stream|))
  }

  lemma OpenMoveKeepsGate(w: World, move: Move, open: Own)
    requires GateInv(Pair(w.root, w.stream), open) && SensibleMove(move) && RootActs(w, move) && OwnFrom(open, |w.stream|)
    ensures GateInv(Pair(Next(w, move).root, Next(w, move).stream), open)
  {
    match move
    case SetState(state) => BecomeKeepsGate(Pair(w.root, w.stream), state, open);
    case Process(o) => HandleKeepsGate(Pair(w.root, w.stream), w.stream[w.cursor], o, open);
  }

  lemma RootMoveKeepsGate(w: World, move: Move, own: Own)
    requires GateInv(Pair(w.root, w.stream), own) && SensibleMove(move) && RootActs(w, move)
    ensures var next := Next(w, move);
      GateInv(Pair(next.root, next.stream), Extended(own, true, |w.stream|, |next.stream|))
  {
    var p, next := Pair(w.root, w.stream), Next(w, move);
    var open: Own := i => if i < |w.stream| then own(i) else true;
    OthersKeepGate(p, w.stream, own, open);
    assert GateInv(p, open);
    OpenMoveKeepsGate(w, move, open);
    OthersKeepGate(Pair(next.root, next.stream), next.stream, open, Extended(own, true, |w.stream|, |next.stream|));
  }

  lemma OtherMoveKeepsGate(w: World, move: Move, own: Own)
    requires GateInv(Pair(w.root, w.stream), own) && !RootActs(w, move)
    ensures var next := Next(w, move);
      GateInv(Pair(next.root, next.stream), Extended(own, false, |w.stream|, |next.stream|))
  {
    var p, next := Pair(w.root, w.stream), Next(w, move);
    var own' := Extended(own, false, |w.stream|, |next.stream|);
    OthersKeepGate(p, next.stream, own, own');
    assert GateInv(p.(stream := next.stream), own');
    assert next.root == w.root.(delegate := next.root.delegate);
  }

  lemma NextKeepsGate(w: World, move: Move, own: Own)
    requires GateInv(Pair(w.root, w.stream), own) && SensibleMove(move)
    ensures var next := Next(w, move);
      GateInv(Pair(next.root, next.stream), Extended(own, RootActs(w, move), |w.stream|, |next.stream|))
  {
    if RootActs(w, move) {
      RootMoveKeepsGate(w, move, own);
    } else {
      OtherMoveKeepsGate(w, move, own);
    }
  }

  /**
   With confirmation mode on, over every run, whatever delegates are started meanwhile: an action
   that the root has sent as confirmed was sent by it before as awaiting confirmation, and it was
   sent as part of a change to USER_CONFIRMED while it was the pending action.
   */
  lemma {:induction false} ConfirmedOnlyAfterAsking(w: World, moves: seq<Move>, own: Own)
    requires GateInv(Pair(w.root, w.stream), own) && SensibleMoves(moves)
    ensures var r := Run(w, moves); GateInv(Pair(r.root, r.stream), OwnAfter(w, moves, own))
    decreases |moves|
  {
    if moves != [] {
      var next := Next(w, moves[0]);
      NextKeepsGate(w, moves[0], own);
      ConfirmedOnlyAfterAsking(next, moves[1..], Extended(own, RootActs(w, moves[0]), |w.stream|, |next.stream|));
    }
  }

  /** So it is for every run from a fresh controller, whatever the stream holds already. */
  lemma FreshRunAsks(w: World, moves: seq<Move>)
    requires Guarded(w.root) && w.root.pending.None? && SensibleMoves(moves)
    ensures ConfirmedOnlyIfAsked(Run(w, moves).stream, OwnAfter(w, moves, i => false))
  {
    ConfirmedOnlyAfterAsking(w, moves, i => false);
  }

  // ----- where the gate does not hold -----

  /**
   The copy that the stream hands to the runtime waits for the user exactly when the action's type
   declares a confirmation state: a file edit or an MCP call is executable at once even in
   confirmation mode.
   */
  lemma GateHoldsExactly(p: Pair, action: Event, analyzed: Risk)
    requires Guarded(p.c) && Allowed(p, Use(action, analyzed))
    ensures var q := Perform(p, action, analyzed);
      Executable(q.stream[|q.stream| - 1]) <==> !KeepsConfirmation(action.tool)
  {
    GuardedAsks(p.c, action, analyzed);
  }

  /**
   Confirmation mode is not handed down: whatever the parent's modes, a tool action of a delegate
   is executable as soon as it is in the stream unless it was already held back when it was made.
   */
  lemma DelegateActsUnasked(parent: Pair, hasTask: bool, o: Oracle, stream: seq<Event>, action: Event, analyzed: Risk)
    requires action.ToolAction?
    ensures var d := StartDelegate(parent, hasTask, o).c.delegate;
      && d.Some?
      && var q := Perform(Pair(d.value, stream), action, analyzed);
         Executable(q.stream[|q.stream| - 1]) <==> Executable(Wire(action))
  {
  }
}

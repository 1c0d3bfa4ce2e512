/** Delegation: who handles an event, what happens to the parent meanwhile, and what closes a delegate. */
module ControllerDelegation {
  import opened Wrappers
  import opened ControllerModel
  import opened ControllerPlan
  import opened ControllerSafety

  lemma OperationKeepsDelegate(p: Pair, a: Operation)
    requires Allowed(p, a) && !a.Spawn?
    ensures Apply(p, a).c.delegate == p.c.delegate
  {
    match a
    case Become(state) => AfterSetAgentState(p, state);
    case AskRecall =>
      var recall := Recall(NewHead(FromUser));
      AfterSetAgentState(Emit(p, recall, FromUser).(c := p.c.(pending := Some(Numbered(p.stream, recall, FromUser)))), RUNNING);
    case Use(action, analyzed) =>
      AfterSetAgentState(p.(c := p.c.(pending := Some(Gate(p.c, action, analyzed)))), AWAITING_USER_CONFIRMATION);
    case _ =>
  }

  /** Handling anything but a delegate action neither starts nor ends a delegate. */
  lemma HandleKeepsDelegate(p: Pair, e: Event, o: Oracle)
    requires Sensible(o) && !e.Delegate?
    ensures Handle(p, e, o).c.delegate == p.c.delegate
  {
    var same := (q: Pair) => q.c.delegate == p.c.delegate;
    forall q, a | same(q) && Allowed(q, a) && !a.Spawn? ensures same(Apply(q, a)) {
      OperationKeepsDelegate(q, a);
    }
    HandleKeeps(same, p, e, o, false);
  }

  // ----- exactly one history gains each event -----

  /** Where the event makes the controller that handles it cut its history, if at all. */
  function CutOf(e: Event, o: Oracle): Option<nat> {
    if e.LoopRecovery? && (e.option == 1 || e.option == 2) then o.loopStart else None
  }

  function Shortened(history: seq<Event>, cut: Option<nat>): seq<Event> {
    if cut.Some? && cut.value < |history| then history[..cut.value] else history
  }

  /** What becomes of the history of the controller that handles an event. */
  function Gained(history: seq<Event>, e: Event, cut: Option<nat>): seq<Event> {
    if Included(e) then Shortened(history + [e], cut) else history
  }

  lemma BecomeKeepsHistory(p: Pair, state: AgentState)
    ensures SetAgentState(p, state).c.history == p.c.history
  {
    AfterSetAgentState(p, state);
  }

  lemma ObservationKeepsHistory(p: Pair, e: Event)
    ensures HandleObservation(p, e).c.history == p.c.history
  {
    var cleared := p.(c := p.c.(pending := None));
    BecomeKeepsHistory(cleared, RUNNING);
    BecomeKeepsHistory(cleared, AWAITING_USER_INPUT);
  }

  lemma MessageKeepsHistory(p: Pair, e: Event)
    requires e.Message?
    ensures HandleMessage(p, e).c.history == p.c.history
  {
    var recall := Recall(NewHead(FromUser));
    BecomeKeepsHistory(Emit(p, recall, FromUser).(c := p.c.(pending := Some(Numbered(p.stream, recall, FromUser)))), RUNNING);
    BecomeKeepsHistory(p, AWAITING_USER_INPUT);
  }

  lemma RestartCuts(p: Pair, point: nat)
    ensures RestartWithLastMessage(p, point).c.history == Truncate(p.c, point).history
  {
    var cut := p.(c := Truncate(p.c, point));
    BecomeKeepsHistory(cut, AWAITING_USER_INPUT);
    BecomeKeepsHistory(cut, RUNNING);
    MessageKeepsHistory(
      Emit(SetAgentState(cut, RUNNING), LoopDetection(NewHead(FromEnvironment)), FromEnvironment),
      Message(NewHead(FromUser), false));
  }

  lemma RecoveryCuts(p: Pair, e: Event, o: Oracle)
    requires e.LoopRecovery?
    ensures HandleLoopRecovery(p, e.option, o.loopStart).c.history == Shortened(p.c.history, CutOf(e, o))
  {
    if o.loopStart.Some? {
      BecomeKeepsHistory(p.(c := Truncate(p.c, o.loopStart.value)), AWAITING_USER_INPUT);
      RestartCuts(p, o.loopStart.value);
      BecomeKeepsHistory(p, STOPPED);
    }
  }

  lemma ActionCutsHistory(p: Pair, e: Event, o: Oracle)
    ensures HandleAction(p, e, o).c.history == Shortened(p.c.history, CutOf(e, o))
  {
    match e
    case ChangeAgentState(_, target) => BecomeKeepsHistory(p, target);
    case Message(_, _) => MessageKeepsHistory(p, e);
    case Finish(_) => BecomeKeepsHistory(p, FINISHED);
    case Reject(_) => BecomeKeepsHistory(p, REJECTED);
    case LoopRecovery(_, _) => RecoveryCuts(p, e, o);
    case _ =>
  }

  lemma PerformKeepsHistory(p: Pair, action: Event, analyzed: Risk)
    ensures Perform(p, action, analyzed).c.history == p.c.history
  {
    if action.ToolAction? {
      BecomeKeepsHistory(p.(c := p.c.(pending := Some(Gate(p.c, action, analyzed)))), AWAITING_USER_CONFIRMATION);
    }
  }

  lemma FailKeepsHistory(p: Pair, state: AgentState, iterationLimit: bool)
    ensures Fail(p, state, iterationLimit).c.history == p.c.history
  {
    BecomeKeepsHistory(p.(c := p.c.(iterationLimitError := iterationLimit)), state);
  }

  lemma StepKeepsHistory(p: Pair, o: Oracle)
    ensures StepAgent(p, o).c.history == p.c.history
  {
    match o.step
    case Act(action) => PerformKeepsHistory(p, action, o.analyzed);
    case SoftError =>
    case ContextTooLong =>
    case Stuck => FailKeepsHistory(p, ERROR, false);
    case LimitHit(iteration) => FailKeepsHistory(p, ERROR, iteration);
    case RateLimited => FailKeepsHistory(p, RATE_LIMITED, false);
    case Raises => FailKeepsHistory(p, ERROR, false);
  }

  /** What one controller makes of an event: its history gains it if it is included, and is cut if the event says so. */
  lemma HandleGains(p: Pair, e: Event, o: Oracle)
    ensures Handle(p, e, o).c.history == Gained(p.c.history, e, CutOf(e, o))
  {
    if !e.head.hidden {
      var p1 := p.(c := AddHistory(p.c, e));
      var p2 := if IsObservation(e) then HandleObservation(p1, e) else HandleAction(p1, e, o);
      if IsObservation(e) {
        ObservationKeepsHistory(p1, e);
      } else {
        ActionCutsHistory(p1, e, o);
      }
      StepKeepsHistory(p2, o);
    }
  }

  /**
   An event that one controller handles enters its history exactly if it is neither hidden nor one of
   the four kinds that are left out; a recovery from a loop, if it has a point to go back to, cuts the
   history there, itself included.
   */
  lemma EntersHistoryExactly(p: Pair, e: Event, o: Oracle)
    ensures var before, after := p.c.history, Handle(p, e, o).c.history;
      var leftOut := e.head.hidden || e.NullAction? || e.NullObservation? || e.ChangeAgentState? || e.StateChanged?;
      var cuts := e.LoopRecovery? && 1 <= e.option <= 2 && o.loopStart.Some? && o.loopStart.value <= |before|;
      after == if leftOut then before else if cuts then before[..o.loopStart.value] else before + [e]
  {
    HandleGains(p, e, o);
    var cut := CutOf(e, o);
    if cut.Some? && cut.value <= |p.c.history| {
      assert (p.c.history + [e])[..cut.value] == p.c.history[..cut.value];
    }
  }

  /** The root takes the event; a delegate there is afterwards has only just been started. */
  predicate RootTakes(c: Controller, c': Controller, e: Event, cut: Option<nat>) {
    && c.delegate.None?
    && c'.history == Gained(c.history, e, cut)
    && (c'.delegate.Some? ==> e.Delegate? && c'.delegate.value.history == [])
  }

  /** The delegate takes the event, and the root is as it was. */
  predicate DelegateTakes(c: Controller, c': Controller, e: Event, cut: Option<nat>) {
    && c.delegate.Some? && c'.delegate.Some?
    && c'.delegate.value.history == Gained(c.delegate.value.history, e, cut)
    && c' == c.(delegate := c'.delegate)
  }

  /** Nobody takes the event: the root only loses the delegate, which had finished. */
  predicate Closes(c: Controller, c': Controller) {
    && c.delegate.Some? && c.delegate.value.agentState in {FINISHED, ERROR, REJECTED}
    && c' == c.(delegate := None)
  }

  lemma SpawnStarts(p: Pair, hasTask: bool, o: Oracle)
    ensures var q := StartDelegate(p, hasTask, o);
      && q.c == p.c.(delegate := q.c.delegate) && q.c.delegate.Some?
      && q.c.delegate.value.history == [] && q.c.delegate.value.pending.None?
  {
    var p1 := if o.delegateHasSystemMessage then Emit(p, SystemMessage(NewHead(FromAgent)), FromAgent) else p;
    var p2 := Emit(p1, Message(NewHead(FromUser), false), FromUser);
    SetAgentStateSplits(Pair(NewDelegate(p.c, o.delegateCliMode), p2.stream), RUNNING);
  }

  lemma RootHandles(p: Pair, e: Event, o: Oracle)
    requires p.c.delegate.None? && Sensible(o) && !e.head.hidden
    ensures var q := OnEvent(p, e, o);
      && (e.Delegate? ==> q.c == p.c.(history := p.c.history + [e], delegate := q.c.delegate)
                          && q.c.delegate.Some? && q.c.delegate.value.history == [] && q.c.delegate.value.pending.None?)
      && (!e.Delegate? ==> q.c.delegate.None?)
  {
    if e.Delegate? {
      var p1 := p.(c := AddHistory(p.c, e));
      assert OnEvent(p, e, o) == StartDelegate(p1, e.hasTask, o);
      SpawnStarts(p1, e.hasTask, o);
    } else {
      HandleKeepsDelegate(p, e, o);
    }
  }

  /** The delegate has come to an end, and not because its iterations ran out. */
  predicate Finished(d: Controller) {
    (d.agentState == FINISHED || d.agentState == ERROR || d.agentState == REJECTED) && !d.iterationLimitError
  }

  /** The next event, whichever it is, closes the delegate exactly if it has come to an end. */
  lemma ClosesExactly(p: Pair, e: Event, o: Oracle)
    ensures Closes(p.c, OnEvent(p, e, o).c) <==>
      && p.c.delegate.Some?
      && p.c.delegate.value.agentState in {FINISHED, ERROR, REJECTED} && !p.c.delegate.value.iterationLimitError
  {
  }

  lemma RootTakesIt(p: Pair, e: Event, o: Oracle)
    requires !e.head.hidden && Sensible(o) && p.c.delegate.None?
    ensures RootTakes(p.c, OnEvent(p, e, o).c, e, CutOf(e, o))
  {
    HandleGains(p, e, o);
    RootHandles(p, e, o);
  }

  lemma DelegateTakesIt(p: Pair, e: Event, o: Oracle)
    requires p.c.delegate.Some? && Forwards(p.c.delegate.value)
    ensures DelegateTakes(p.c, OnEvent(p, e, o).c, e, CutOf(e, o))
  {
    HandleGains(Pair(p.c.delegate.value, p.stream), e, o);
  }

  /**
   Every event that reaches the root and is not hidden goes to exactly one place: the root takes it
   if there is no delegate; it closes a delegate that has come to an end, and no history gains it;
   any other delegate takes it and the root is as it was.  Who takes it appends it, if it is
   included, and cuts its own history if the event is a recovery from a loop.
   */
  lemma OneHandler(p: Pair, e: Event, o: Oracle)
    requires !e.head.hidden && Sensible(o)
    ensures var c, c', cut := p.c, OnEvent(p, e, o).c, CutOf(e, o);
      && (RootTakes(c, c', e, cut) <==> c.delegate.None?)
      && (Closes(c, c') <==> c.delegate.Some? && Finished(c.delegate.value))
      && (DelegateTakes(c, c', e, cut) <==> c.delegate.Some? && !Finished(c.delegate.value))
  {
    ClosesExactly(p, e, o);
    if p.c.delegate.None? {
      RootTakesIt(p, e, o);
    } else if Forwards(p.c.delegate.value) {
      DelegateTakesIt(p, e, o);
    }
  }

  // ----- over a run the histories share out the stream -----

  /** Where an event went: to the root, to the k-th delegate, or nowhere. */
  datatype Taker = ByRoot | ByDelegate(k: nat) | ByNobody

  /** An event that was processed, who took it, and where it cuts the taker's history. */
  datatype Delivery = Delivery(event: Event, taker: Taker, cut: Option<nat>)

  function TakerOf(c: Controller, k: nat): Taker {
    if c.delegate.None? then ByRoot else if Finished(c.delegate.value) then ByNobody else ByDelegate(k)
  }

  predicate Processes(w: World, move: Move) {
    move.Process? && w.cursor < |w.stream|
  }

  function Delivered(w: World, move: Move, k: nat): seq<Delivery> {
    if Processes(w, move) then [Delivery(w.stream[w.cursor], TakerOf(w.root, k), CutOf(w.stream[w.cursor], move.o))] else []
  }

  /** The root is about to start a delegate. */
  predicate Delegates(w: World, move: Move) {
    Processes(w, move) && w.root.delegate.None? && w.stream[w.cursor].Delegate? && !w.stream[w.cursor].head.hidden
  }

  function CountAfter(w: World, move: Move, k: nat): nat {
    if Delegates(w, move) then k + 1 else k
  }

  /** The events that are processed during the run; `k` delegates have been started before. */
  function Deliveries(w: World, moves: seq<Move>, k: nat): seq<Delivery>
    decreases |moves|
  {
    if moves == [] then []
    else Delivered(w, moves[0], k) + Deliveries(Next(w, moves[0]), moves[1..], CountAfter(w, moves[0], k))
  }

  /** How many delegates have been started by the end. */
  function Count(w: World, moves: seq<Move>, k: nat): nat
    decreases |moves|
  {
    if moves == [] then k else Count(Next(w, moves[0]), moves[1..], CountAfter(w, moves[0], k))
  }

  /** What one taker got, in order. */
  function Share(ds: seq<Delivery>, taker: Taker): seq<Delivery> {
    if ds == [] then []
    else (if ds[0].taker == taker then [ds[0]] else []) + Share(ds[1..], taker)
  }

  /** What the deliveries make of a history: each is appended and its cut applied, in order. */
  function After(history: seq<Event>, ds: seq<Delivery>): seq<Event>
    decreases |ds|
  {
    if ds == [] then history else After(Gained(history, ds[0].event, ds[0].cut), ds[1..])
  }

  function EventsOf(ds: seq<Delivery>): seq<Event> {
    seq(|ds|, i requires 0 <= i < |ds| => ds[i].event)
  }

  function DelegateHistory(c: Controller): seq<Event> {
    if c.delegate.Some? then c.delegate.value.history else []
  }

  /** What the deliveries make of the root's history and its present delegate's. */
  predicate SharedOut(c: Controller, c': Controller, ds: seq<Delivery>, k: nat, last: nat) {
    && last >= k
    && c'.history == After(c.history, Share(ds, ByRoot))
    && (c'.delegate.Some? ==>
          c'.delegate.value.history == After(if last == k then DelegateHistory(c) else [], Share(ds, ByDelegate(last))))
    && (last == k && c.delegate.None? ==> c'.delegate.None?)
  }

  /** One move: who gains what. */
  lemma MoveShares(w: World, move: Move, k: nat)
    requires SensibleMove(move)
    ensures SharedOut(w.root, Next(w, move).root, Delivered(w, move, k), k, CountAfter(w, move, k))
  {
    if Processes(w, move) {
      var e, p := w.stream[w.cursor], Pair(w.root, w.stream);
      var ds := Delivered(w, move, k);
      assert ds[1..] == [];
      assert Share(ds, TakerOf(w.root, k)) == ds;
      if w.root.delegate.None? {
        HandleGains(p, e, move.o);
        if !e.head.hidden {
          RootHandles(p, e, move.o);
        }
      } else if Forwards(w.root.delegate.value) {
        HandleGains(Pair(w.root.delegate.value, w.stream), e, move.o);
      }
    } else if move.SetState? {
      AfterSetAgentState(Pair(w.root, w.stream), move.state);
    }
  }

  lemma ShareCons(ds: seq<Delivery>, rest: seq<Delivery>, taker: Taker)
    requires |ds| <= 1
    ensures Share(ds + rest, taker) == Share(ds, taker) + Share(rest, taker)
  {
    if ds == [] {
      assert ds + rest == rest;
    } else {
      assert (ds + rest)[1..] == rest && ds[1..] == [];
    }
  }

  lemma {:induction false} AfterJoins(history: seq<Event>, ds: seq<Delivery>, rest: seq<Delivery>)
    ensures After(history, ds + rest) == After(After(history, ds), rest)
    decreases |ds|
  {
    if ds == [] {
      assert ds + rest == rest;
    } else {
      assert (ds + rest)[1..] == ds[1..] + rest;
      AfterJoins(Gained(history, ds[0].event, ds[0].cut), ds[1..], rest);
    }
  }

  /** A delegate that is not there yet takes nothing. */
  lemma SharesOfOthers(ds: seq<Delivery>, c: Controller, k: nat, last: nat)
    requires |ds| <= 1 && (ds != [] ==> ds[0].taker == TakerOf(c, k))
    ensures last != k || c.delegate.None? ==> Share(ds, ByDelegate(last)) == []
  {
    if ds != [] {
      assert ds[1..] == [];
    }
  }

  lemma SharedOutJoins(c: Controller, mid: Controller, c': Controller, ds: seq<Delivery>, rest: seq<Delivery>,
                       k: nat, k': nat, last: nat)
    requires |ds| <= 1 && (ds != [] ==> ds[0].taker == TakerOf(c, k))
    requires SharedOut(c, mid, ds, k, k') && SharedOut(mid, c', rest, k', last)
    ensures SharedOut(c, c', ds + rest, k, last)
  {
    ShareCons(ds, rest, ByRoot);
    ShareCons(ds, rest, ByDelegate(last));
    SharesOfOthers(ds, c, k, last);
    AfterJoins(c.history, Share(ds, ByRoot), Share(rest, ByRoot));
    AfterJoins(if last == k then DelegateHistory(c) else [], Share(ds, ByDelegate(last)), Share(rest, ByDelegate(last)));
  }

  /**
   Over every run, the root's history is what the events that the root took make of it, each
   appended and its cut applied, and the present delegate's is what those make of it that it took
   since it was started.
   */
  lemma {:induction false} HistoriesShareTheStream(w: World, moves: seq<Move>, k: nat)
    requires SensibleMoves(moves)
    ensures SharedOut(w.root, Run(w, moves).root, Deliveries(w, moves, k), k, Count(w, moves, k))
    decreases |moves|
  {
    if moves != [] {
      var next, k' := Next(w, moves[0]), CountAfter(w, moves[0], k);
      MoveShares(w, moves[0], k);
      HistoriesShareTheStream(next, moves[1..], k');
      SharedOutJoins(w.root, next.root, Run(next, moves[1..]).root, Delivered(w, moves[0], k), Deliveries(next, moves[1..], k'),
                     k, k', Count(next, moves[1..], k'));
    }
  }

  function IncludedOf(ds: seq<Delivery>): seq<Event>
    decreases |ds|
  {
    if ds == [] then []
    else if Included(ds[0].event) then [ds[0].event] + IncludedOf(ds[1..])
    else IncludedOf(ds[1..])
  }

  /** What is left of a sequence when some of its elements are dropped. */
  ghost predicate InOrder(part: seq<Event>, whole: seq<Event>)
    decreases |whole|
  {
    if part == [] then true
    else if whole == [] then false
    else
      var n := |whole| - 1;
      InOrder(part, whole[..n]) || (part[|part| - 1] == whole[n] && InOrder(part[..|part| - 1], whole[..n]))
  }

  lemma {:induction false} PrefixInOrder(part: seq<Event>, whole: seq<Event>, n: nat)
    requires InOrder(part, whole) && n <= |part|
    ensures InOrder(part[..n], whole)
    decreases |whole|
  {
    if n == |part| {
      assert part[..n] == part;
    } else if n > 0 {
      var rest := whole[..|whole| - 1];
      if InOrder(part, rest) {
        PrefixInOrder(part, rest, n);
      } else {
        PrefixInOrder(part[..|part| - 1], rest, n);
        assert part[..|part| - 1][..n] == part[..n];
      }
    }
  }

  lemma GainedInOrder(history: seq<Event>, whole: seq<Event>, e: Event, cut: Option<nat>)
    requires InOrder(history, whole) && Included(e)
    ensures InOrder(Gained(history, e, cut), whole + [e])
  {
    assert (history + [e])[..|history|] == history && (whole + [e])[..|whole|] == whole;
    if cut.Some? && cut.value < |history + [e]| {
      PrefixInOrder(history + [e], whole + [e], cut.value);
    }
  }

  lemma Associates(a: seq<Event>, b: seq<Event>, c: seq<Event>)
    ensures a + (b + c) == a + b + c
  {
  }

  lemma IncludedCons(whole: seq<Event>, ds: seq<Delivery>)
    requires ds != [] && Included(ds[0].event)
    ensures whole + IncludedOf(ds) == whole + [ds[0].event] + IncludedOf(ds[1..])
  {
    Associates(whole, [ds[0].event], IncludedOf(ds[1..]));
  }

  lemma {:induction false} AfterInOrder(history: seq<Event>, whole: seq<Event>, ds: seq<Delivery>)
    requires InOrder(history, whole)
    ensures InOrder(After(history, ds), whole + IncludedOf(ds))
    decreases |ds|
  {
    if ds == [] {
      assert whole + IncludedOf(ds) == whole;
    } else {
      var e := ds[0].event;
      if Included(e) {
        IncludedCons(whole, ds);
        GainedInOrder(history, whole, e, ds[0].cut);
        AfterInOrder(Gained(history, e, ds[0].cut), whole + [e], ds[1..]);
      } else {
        AfterInOrder(history, whole, ds[1..]);
      }
    }
  }

  lemma {:induction false} InOrderOfItself(s: seq<Event>)
    ensures InOrder(s, s)
    decreases |s|
  {
    if s != [] {
      InOrderOfItself(s[..|s| - 1]);
    }
  }

  predicate Uncut(ds: seq<Delivery>) {
    forall i :: 0 <= i < |ds| ==> ds[i].cut.None?
  }

  lemma {:induction false} UncutAfter(history: seq<Event>, ds: seq<Delivery>)
    requires Uncut(ds)
    ensures After(history, ds) == history + IncludedOf(ds)
    decreases |ds|
  {
    if ds == [] {
      assert history + IncludedOf(ds) == history;
    } else {
      if Included(ds[0].event) {
        IncludedCons(history, ds);
      }
      UncutAfter(Gained(history, ds[0].event, ds[0].cut), ds[1..]);
    }
  }

  /**
   Over every run the root's history holds only events it had or took, in their order, whatever was
   cut; and if no event it took cuts, it holds all of them.
   */
  lemma RootRemembersInOrder(w: World, moves: seq<Move>, k: nat)
    requires SensibleMoves(moves)
    ensures var took := Share(Deliveries(w, moves, k), ByRoot);
      && InOrder(Run(w, moves).root.history, w.root.history + IncludedOf(took))
      && (Uncut(took) ==> Run(w, moves).root.history == w.root.history + IncludedOf(took))
  {
    var took := Share(Deliveries(w, moves, k), ByRoot);
    HistoriesShareTheStream(w, moves, k);
    InOrderOfItself(w.root.history);
    AfterInOrder(w.root.history, w.root.history, took);
    if Uncut(took) {
      UncutAfter(w.root.history, took);
    }
  }

  /** The same for a delegate that was started during the run: it remembers only what it took. */
  lemma DelegateRemembersInOrder(w: World, moves: seq<Move>, k: nat)
    requires SensibleMoves(moves) && Run(w, moves).root.delegate.Some? && Count(w, moves, k) > k
    ensures var took := Share(Deliveries(w, moves, k), ByDelegate(Count(w, moves, k)));
      && InOrder(Run(w, moves).root.delegate.value.history, IncludedOf(took))
      && (Uncut(took) ==> Run(w, moves).root.delegate.value.history == IncludedOf(took))
  {
    var took := Share(Deliveries(w, moves, k), ByDelegate(Count(w, moves, k)));
    HistoriesShareTheStream(w, moves, k);
    AfterInOrder([], [], took);
    assert [] + IncludedOf(took) == IncludedOf(took);
    if Uncut(took) {
      UncutAfter([], took);
    }
  }

  lemma EventsCons(ds: seq<Delivery>, rest: seq<Delivery>)
    requires |ds| == 1
    ensures EventsOf(ds + rest) == [ds[0].event] + EventsOf(rest)
  {
  }

  lemma SliceCons(s: seq<Event>, from: nat, to: nat)
    requires from < to <= |s|
    ensures s[from..to] == [s[from]] + s[from + 1..to]
  {
  }

  /** Who took what is settled event by event: the events delivered are those of the stream, in order. */
  lemma {:induction false} TakenIsStream(w: World, moves: seq<Move>, k: nat)
    requires w.cursor <= |w.stream|
    ensures var r := Run(w, moves);
      w.cursor <= r.cursor <= |r.stream| && EventsOf(Deliveries(w, moves, k)) == r.stream[w.cursor..r.cursor]
    decreases |moves|
  {
    if moves != [] {
      var next, k' := Next(w, moves[0]), CountAfter(w, moves[0], k);
      var r := Run(next, moves[1..]);
      TakenIsStream(next, moves[1..], k');
      assert w.stream <= next.stream <= r.stream;
      if Processes(w, moves[0]) {
        EventsCons(Delivered(w, moves[0], k), Deliveries(next, moves[1..], k'));
        SliceCons(r.stream, w.cursor, r.cursor);
      }
    }
  }

  /** The moves of a run during which the delegate stays. */
  ghost predicate Delegating(w: World, moves: seq<Move>)
    decreases |moves|
  {
    w.root.delegate.Some? && (moves == [] || Delegating(Next(w, moves[0]), moves[1..]))
  }

  predicate NoDirectChange(moves: seq<Move>) {
    forall i :: 0 <= i < |moves| ==> !moves[i].SetState?
  }

  /** With a delegate in place, an event changes at most the delegate. */
  lemma EventLeavesParent(p: Pair, e: Event, o: Oracle)
    requires p.c.delegate.Some?
    ensures var c := OnEvent(p, e, o).c; c == p.c.(delegate := c.delegate)
  {
  }

  lemma MoveLeavesParent(w: World, move: Move)
    requires w.root.delegate.Some?
    ensures var root := Next(w, move).root;
      && root.history == w.root.history
      && (!move.SetState? ==> root == w.root.(delegate := root.delegate))
  {
    match move
    case Append(_) =>
    case SetState(state) => AfterSetAgentState(Pair(w.root, w.stream), state);
    case Process(o) =>
      if w.cursor < |w.stream| {
        EventLeavesParent(Pair(w.root, w.stream), w.stream[w.cursor], o);
      }
  }

  /**
   Until its delegate is closed the parent's history does not change, and nothing else of the
   parent does either unless its state is set directly.
   */
  lemma {:induction false} ParentIsFrozen(w: World, moves: seq<Move>)
    requires Delegating(w, moves)
    ensures Run(w, moves).root.delegate.Some? && Run(w, moves).root.history == w.root.history
    ensures NoDirectChange(moves) ==> Run(w, moves).root == w.root.(delegate := Run(w, moves).root.delegate)
    decreases |moves|
  {
    if moves != [] {
      MoveLeavesParent(w, moves[0]);
      ParentIsFrozen(Next(w, moves[0]), moves[1..]);
      assert NoDirectChange(moves) ==> !moves[0].SetState? && NoDirectChange(moves[1..]);
    }
  }

  /** Stopping a controller appends its change of state, after an error for a pending action without an observation. */
  lemma StoppingAppends(d: Pair)
    requires d.c.agentState != STOPPED
    ensures var closed := SetAgentState(d, STOPPED);
      && |d.stream| + 1 <= |closed.stream| <= |d.stream| + 2
      && forall i :: |d.stream| <= i < |closed.stream| ==> !closed.stream[i].DelegateObservation?
  {
    SetAgentStateSplits(d, STOPPED);
    var before := BeforeShowing(d, STOPPED);
    assert before.stream == d.stream || (|before.stream| == |d.stream| + 1 && before.stream[|d.stream|].ErrorObservation?);
  }

  /** The events that closing a delegate appends, of which the last is the delegate's result. */
  lemma ClosingAppendsResult(p: Pair, e: Event, o: Oracle)
    requires p.c.delegate.Some? && !Forwards(p.c.delegate.value)
    ensures var q := OnEvent(p, e, o);
      var appended := q.stream[|p.stream|..];
      && 2 <= |appended| <= 3
      && (forall i :: 0 <= i < |appended| - 1 ==> !appended[i].DelegateObservation?)
      && appended[|appended| - 1] == DelegateObservation(Head(|q.stream| - 1, FromAgent, None, LastDelegateCall(p.c.history), false))
  {
    StoppingAppends(Pair(p.c.delegate.value, p.stream));
    var closed := SetAgentState(Pair(p.c.delegate.value, p.stream), STOPPED);
    var q := OnEvent(p, e, o);
    assert q.stream[..|closed.stream|] == closed.stream;
  }

  /** The tool call that a result is for is that of the latest delegate action in the history, wherever it stands. */
  lemma {:induction false} LastDelegateCallExactly(history: seq<Event>, i: nat)
    requires i < |history| && history[i].Delegate? && forall j :: i < j < |history| ==> !history[j].Delegate?
    ensures LastDelegateCall(history) == history[i].head.toolCall
    decreases |history|
  {
    if i < |history| - 1 {
      LastDelegateCallExactly(history[..|history| - 1], i);
    }
  }

  /** The next event closes the delegate. */
  predicate AboutToClose(w: World) {
    w.cursor < |w.stream| && w.root.delegate.Some? && Finished(w.root.delegate.value)
  }

  /** The next event is a delegate action that the root will handle. */
  predicate AboutToDelegate(w: World) {
    w.cursor < |w.stream| && w.root.delegate.None? && w.stream[w.cursor].Delegate? && !w.stream[w.cursor].head.hidden
  }

  /** From `before` to `after` one result was appended, for the given tool call, and the delegate is gone. */
  predicate ClosedWith(before: World, after: World, toolCall: Option<int>) {
    && after.root == before.root.(delegate := None)
    && |after.stream| > |before.stream|
    && after.stream[|after.stream| - 1].DelegateObservation?
    && after.stream[|after.stream| - 1].head.toolCall == toolCall
    && forall i :: |before.stream| <= i < |after.stream| - 1 ==> !after.stream[i].DelegateObservation?
  }

  lemma ClosingMove(w: World, o: Oracle)
    requires AboutToClose(w)
    ensures ClosedWith(w, Next(w, Process(o)), LastDelegateCall(w.root.history))
  {
    var p := Pair(w.root, w.stream);
    var e := w.stream[w.cursor];
    ClosingAppendsResult(p, e, o);
    var q := OnEvent(p, e, o);
    forall i | |w.stream| <= i < |q.stream| - 1 ensures !q.stream[i].DelegateObservation? {
      assert q.stream[i] == q.stream[|w.stream|..][i - |w.stream|];
    }
  }

  // ----- one result for each delegation -----

  predicate NoResultFrom(stream: seq<Event>, from: nat) {
    forall i :: from <= i < |stream| ==> !stream[i].DelegateObservation?
  }

  predicate PendingIsNoResult(c: Controller) {
    c.pending.Some? ==> !c.pending.value.DelegateObservation?
  }

  predicate NoResult(p: Pair, from: nat) {
    NoResultFrom(p.stream, from) && PendingIsNoResult(p.c)
  }

  lemma BeforeShowingEmitsNoResult(p: Pair, state: AgentState, from: nat)
    requires NoResult(p, from)
    ensures NoResult(BeforeShowing(p, state), from)
  {
  }

  lemma EmitsNoResult(p: Pair, e: Event, source: Source, from: nat)
    requires NoResult(p, from) && !e.DelegateObservation?
    ensures NoResult(Emit(p, e, source), from)
  {
  }

  lemma BecomeEmitsNoResult(p: Pair, state: AgentState, from: nat)
    requires NoResult(p, from)
    ensures NoResult(SetAgentState(p, state), from)
  {
    if state != p.c.agentState {
      SetAgentStateSplits(p, state);
      BeforeShowingEmitsNoResult(p, state, from);
      EmitsNoResult(BeforeShowing(p, state), StateChanged(NewHead(FromEnvironment), state), FromEnvironment, from);
    }
  }

  lemma RecallEmitsNoResult(p: Pair, from: nat)
    requires NoResult(p, from)
    ensures NoResult(Apply(p, AskRecall), from)
  {
    var recall := Recall(NewHead(FromUser));
    BecomeEmitsNoResult(Emit(p, recall, FromUser).(c := p.c.(pending := Some(Numbered(p.stream, recall, FromUser)))), RUNNING, from);
  }

  lemma UseEmitsNoResult(p: Pair, action: Event, analyzed: Risk, from: nat)
    requires NoResult(p, from) && action.ToolAction?
    ensures NoResult(Perform(p, action, analyzed), from)
  {
    var gated := Gate(p.c, action, analyzed);
    var asked := Ask(p, gated);
    BecomeEmitsNoResult(p.(c := p.c.(pending := Some(gated))), AWAITING_USER_CONFIRMATION, from);
    EmitsNoResult(asked, gated, gated.head.source, from);
  }

  lemma SpawnEmitsNoResult(p: Pair, hasTask: bool, o: Oracle, from: nat)
    requires NoResult(p, from)
    ensures NoResult(StartDelegate(p, hasTask, o), from)
  {
    var p1 := if o.delegateHasSystemMessage then Emit(p, SystemMessage(NewHead(FromAgent)), FromAgent) else p;
    var p2 := Emit(p1, Message(NewHead(FromUser), false), FromUser);
    BecomeEmitsNoResult(Pair(NewDelegate(p.c, o.delegateCliMode), p2.stream), RUNNING, from);
  }

  lemma OperationEmitsNoResult(p: Pair, a: Operation, from: nat)
    requires NoResult(p, from) && Allowed(p, a)
    ensures NoResult(Apply(p, a), from)
  {
    match a
    case Become(state) => BecomeEmitsNoResult(p, state, from);
    case AskRecall => RecallEmitsNoResult(p, from);
    case Use(action, analyzed) => UseEmitsNoResult(p, action, analyzed, from);
    case Spawn(hasTask, o) => SpawnEmitsNoResult(p, hasTask, o, from);
    case Say(e, source) => EmitsNoResult(p, e, source, from);
    case Remember(_) =>
    case Settle =>
    case Forget(_) =>
    case Flag(_) =>
  }

  lemma HandleEmitsNoResult(p: Pair, e: Event, o: Oracle, from: nat)
    requires NoResult(p, from) && Sensible(o)
    ensures NoResult(Handle(p, e, o), from)
  {
    var none := (q: Pair) => NoResult(q, from);
    forall q, a | none(q) && Allowed(q, a) ensures none(Apply(q, a)) {
      OperationEmitsNoResult(q, a, from);
    }
    HandleKeeps(none, p, e, o, true);
  }

  predicate DelegatingWithoutResult(w: World, from: nat) {
    w.root.delegate.Some? && NoResult(Pair(w.root, w.stream), from) && PendingIsNoResult(w.root.delegate.value)
  }

  /** Only controllers report results. */
  predicate NoResultsFromOutside(moves: seq<Move>) {
    forall i :: 0 <= i < |moves| ==> moves[i].Append? ==> !moves[i].e.DelegateObservation?
  }

  lemma {:induction false} NoResultMeanwhile(w: World, moves: seq<Move>, from: nat)
    requires Delegating(w, moves) && SensibleMoves(moves) && NoResultsFromOutside(moves) && DelegatingWithoutResult(w, from)
    ensures DelegatingWithoutResult(Run(w, moves), from)
    decreases |moves|
  {
    if moves != [] {
      var move, next := moves[0], Next(w, moves[0]);
      if Processes(w, move) {
        assert Forwards(w.root.delegate.value);
        HandleEmitsNoResult(Pair(w.root.delegate.value, w.stream), w.stream[w.cursor], move.o, from);
      } else if move.SetState? {
        BecomeEmitsNoResult(Pair(w.root, w.stream), move.state, from);
        AfterSetAgentState(Pair(w.root, w.stream), move.state);
      }
      NoResultMeanwhile(next, moves[1..], from);
    }
  }

  /** Over every run neither the root's pending action nor its delegate's is a result. */
  lemma {:induction false} PendingStaysNoResult(w: World, moves: seq<Move>)
    requires PendingIsNoResult(w.root) && (w.root.delegate.Some? ==> PendingIsNoResult(w.root.delegate.value)) && SensibleMoves(moves)
    ensures var r := Run(w, moves).root; PendingIsNoResult(r) && (r.delegate.Some? ==> PendingIsNoResult(r.delegate.value))
    decreases |moves|
  {
    if moves != [] {
      var move, next := moves[0], Next(w, moves[0]);
      if Processes(w, move) {
        var e := w.stream[w.cursor];
        if w.root.delegate.None? {
          HandleEmitsNoResult(Pair(w.root, w.stream), e, move.o, |w.stream|);
          if !e.head.hidden {
            RootHandles(Pair(w.root, w.stream), e, move.o);
          }
        } else if Forwards(w.root.delegate.value) {
          HandleEmitsNoResult(Pair(w.root.delegate.value, w.stream), e, move.o, |w.stream|);
        }
      } else if move.SetState? {
        BecomeEmitsNoResult(Pair(w.root, w.stream), move.state, |w.stream|);
        AfterSetAgentState(Pair(w.root, w.stream), move.state);
      }
      PendingStaysNoResult(next, moves[1..]);
    }
  }

  /** The one result that the stream gained from `from` on is the last event, for the given tool call. */
  predicate OneResult(stream: seq<Event>, from: nat, toolCall: Option<int>) {
    && from < |stream|
    && stream[|stream| - 1].DelegateObservation? && stream[|stream| - 1].head.toolCall == toolCall
    && forall i :: from <= i < |stream| - 1 ==> !stream[i].DelegateObservation?
  }

  lemma DelegationStarts(w: World, o: Oracle)
    requires AboutToDelegate(w) && PendingIsNoResult(w.root) && Sensible(o)
    ensures var started := Next(w, Process(o));
      && started.root == w.root.(history := w.root.history + [w.stream[w.cursor]], delegate := started.root.delegate)
      && DelegatingWithoutResult(started, |w.stream|)
  {
    RootHandles(Pair(w.root, w.stream), w.stream[w.cursor], o);
    HandleEmitsNoResult(Pair(w.root, w.stream), w.stream[w.cursor], o, |w.stream|);
  }

  /**
   A delegation is a round trip: from the delegate action that the root handles, through any moves
   that leave the delegate in place, to the event that closes it, the root's history gains that
   action and nothing else, and the stream gains exactly one result, with the tool call of that
   action.
   */
  lemma DelegationRoundTrip(w: World, o: Oracle, moves: seq<Move>, closing: Oracle)
    requires AboutToDelegate(w) && PendingIsNoResult(w.root) && Sensible(o) && SensibleMoves(moves) && NoResultsFromOutside(moves)
    requires Delegating(Next(w, Process(o)), moves) && AboutToClose(Run(Next(w, Process(o)), moves))
    ensures var action := w.stream[w.cursor];
      var done := Next(Run(Next(w, Process(o)), moves), Process(closing));
      && done.root.history == w.root.history + [action] && done.root.delegate.None?
      && (NoDirectChange(moves) ==> done.root == w.root.(history := w.root.history + [action]))
      && OneResult(done.stream, |w.stream|, action.head.toolCall)
  {
    var action := w.stream[w.cursor];
    var started := Next(w, Process(o));
    DelegationStarts(w, o);
    ParentIsFrozen(started, moves);
    NoResultMeanwhile(started, moves, |w.stream|);
    var ready := Run(started, moves);
    assert ready.root.history == w.root.history + [action];
    assert LastDelegateCall(w.root.history + [action]) == action.head.toolCall;
    assert w.stream <= started.stream <= ready.stream;
    ClosingMove(ready, closing);
    var done := Next(ready, Process(closing));
    assert ready.stream <= done.stream;
  }

  // ----- a delegate of a delegate -----

  /** A delegate's delegate is never called: it stays as it was started. */
  predicate Inert(c: Controller) {
    c.history == [] && c.pending.None? && c.delegate.None? && (c.agentState == LOADING || c.agentState == RUNNING)
  }

  predicate NestedInert(root: Controller) {
    root.delegate.Some? && root.delegate.value.delegate.Some? ==> Inert(root.delegate.value.delegate.value)
  }

  lemma SpawnIsInert(p: Pair, hasTask: bool, o: Oracle)
    ensures var d := StartDelegate(p, hasTask, o).c.delegate; d.Some? && Inert(d.value)
  {
  }

  predicate ChildInert(c: Controller) {
    c.delegate.Some? ==> Inert(c.delegate.value)
  }

  lemma HandleKeepsChildInert(p: Pair, e: Event, o: Oracle)
    requires ChildInert(p.c) && Sensible(o)
    ensures ChildInert(Handle(p, e, o).c)
  {
    var inert := (q: Pair) => ChildInert(q.c);
    forall q, a | inert(q) && Allowed(q, a) ensures inert(Apply(q, a)) {
      if a.Spawn? {
        SpawnIsInert(q, a.hasTask, a.o);
      } else {
        OperationKeepsDelegate(q, a);
      }
    }
    HandleKeeps(inert, p, e, o, true);
  }

  lemma NextKeepsNestedInert(w: World, move: Move)
    requires NestedInert(w.root) && SensibleMove(move)
    ensures NestedInert(Next(w, move).root)
  {
    if move.Process? && w.cursor < |w.stream| {
      var e := w.stream[w.cursor];
      if w.root.delegate.None? {
        HandleKeepsChildInert(Pair(w.root, w.stream), e, move.o);
        var q := Handle(Pair(w.root, w.stream), e, move.o);
        assert q.c.delegate.Some? ==> q.c.delegate.value.delegate.None?;
      } else if Forwards(w.root.delegate.value) {
        HandleKeepsChildInert(Pair(w.root.delegate.value, w.stream), e, move.o);
      }
    } else if move.SetState? {
      AfterSetAgentState(Pair(w.root, w.stream), move.state);
    }
  }

  /**
   Over every run, a delegate that a delegate has started handles no event at all: events are
   forwarded one level down only.
   */
  lemma {:induction false} NestedDelegateNeverActs(w: World, moves: seq<Move>)
    requires NestedInert(w.root) && SensibleMoves(moves)
    ensures NestedInert(Run(w, moves).root)
    decreases |moves|
  {
    if moves != [] {
      NextKeepsNestedInert(w, moves[0]);
      NestedDelegateNeverActs(Next(w, moves[0]), moves[1..]);
    }
  }
}

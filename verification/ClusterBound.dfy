/** The bound on the delays is exact: without it, punctual nodes can run a conversation twice. */
module ClusterBound {
  import opened ClusterFailover
  import opened ClusterLease
  import opened ClusterTiming

  const STORE := map[KEY := REDIS_ENTRY_TIMEOUT_SECONDS]

  function Owner(sid: string): string {
    "user"
  }

  /** Some punctual run leads from one state to the other. */
  ghost predicate Leads(t: Timed, u: Timed, d: Delays) {
    exists events :: RunPunctual(t, events, Owner, d) && TimedRun(t, events) == u
  }

  lemma LeadsByRun(t: Timed, events: seq<Event>, d: Delays)
    requires RunPunctual(t, events, Owner, d)
    ensures Leads(t, TimedRun(t, events), d)
  {
  }

  lemma LeadsOn(t: Timed, u: Timed, v: Timed, d: Delays)
    requires Leads(t, u, d) && Leads(u, v, d)
    ensures Leads(t, v, d)
  {
    var a :| RunPunctual(t, a, Owner, d) && TimedRun(t, a) == u;
    var b :| RunPunctual(u, b, Owner, d) && TimedRun(u, b) == v;
    RunJoins(t, a, b, Owner, d);
  }

  lemma LeadsByStep(t: Timed, e: Event, d: Delays)
    requires StepPunctual(t, e, Owner, d)
    ensures Leads(t, TimedStep(t, e), d)
  {
    assert [e][1..] == [];
    assert RunPunctual(TimedStep(t, e), [], Owner, d) && TimedRun(TimedStep(t, e), []) == TimedStep(t, e);
    assert RunPunctual(t, [e], Owner, d) && TimedRun(t, [e]) == TimedStep(t, e);
  }

  // ----- a cluster in which only node 1 is up -----

  function Alone(now: int, store: Store, node: Node, s: Schedule): Timed {
    Timed(Cluster(now, store, map[1 := node]), map[1 := s])
  }

  function Up(starting: map<string, string>, running: map<string, string>, closing: map<string, string>, staged: set<Key>): Node {
    Node(true, starting, running, closing, staged, map[])
  }

  /** An event of node 1 for which its clock need not wait. */
  lemma AloneActs(now: int, store: Store, node: Node, s: Schedule, e: Event, store': Store, node': Node, s': Schedule, d: Delays)
    requires !e.Tick? && e.n == 1 && NamesOwner(e, Owner)
    requires NodeStep(node, store, now, e) == (node', store') && Note(Alone(now, store, node, s), e) == s'
    ensures Leads(Alone(now, store, node, s), Alone(now, store', node', s'), d)
  {
    var t := Alone(now, store, node, s);
    assert TimedStep(t, e).c.nodes == map[1 := node'] && TimedStep(t, e).schedules == map[1 := s'];
    LeadsByStep(t, e, d);
  }

  /** Time passes for node 1. */
  lemma AloneWaits(now: int, store: Store, node: Node, s: Schedule, k: nat, d: Delays)
    requires NodePunctual(node, s, now, d) && NodePunctual(node, s, now + k, d)
    ensures Leads(Alone(now, store, node, s), Alone(now + k, store, node, s), d)
  {
    var t := Alone(now, store, node, s);
    assert Punctual(t, d) && Punctual(Later(t, k), d);
    TicksRun(t, k, Owner, d);
    LeadsByRun(t, Ticks(k), d);
  }

  /** A pipeline without keys, built and executed at once. */
  lemma RefreshesNothing(now: int, store: Store, node: Node, s: Schedule, d: Delays)
    requires node.alive && node.running == map[] && !s.building
    ensures Leads(Alone(now, store, node, s), Alone(now, store, node.(staged := {}), s.(since := now)), d)
  {
    var building := s.(building := true, since := now);
    assert KeysOf(node.running) == {} && SetKeys(store, now, {}) == store;
    AloneActs(now, store, node, s, Stage(1), store, node.(staged := {}), building, d);
    AloneActs(now, store, node.(staged := {}), building, Flush(1), store, node.(staged := {}), s.(since := now), d);
    LeadsOn(Alone(now, store, node, s), Alone(now, store, node.(staged := {}), building), Alone(now, store, node.(staged := {}), s.(since := now)), d);
  }

  /** A node without running conversations can refresh every second for as long as its claims and closings allow. */
  lemma {:induction false} AloneIdles(now: int, store: Store, node: Node, s: Schedule, k: nat, d: Delays)
    requires node.alive && node.running == map[] && node.staged == {} && s.since == now && !s.building
    requires NodePunctual(node, s, now, d) && NodePunctual(node, s.(since := now + k), now + k, d)
    ensures Leads(Alone(now, store, node, s), Alone(now + k, store, node, s.(since := now + k)), d)
    decreases k
  {
    if k == 0 {
      assert s.(since := now) == s;
      AloneWaits(now, store, node, s, 0, d);
    } else {
      var last := s.(since := now + k - 1);
      AloneIdles(now, store, node, s, k - 1, d);
      AloneWaits(now + k - 1, store, node, last, 1, d);
      RefreshesNothing(now + k, store, node, last, d);
      var t, u := Alone(now, store, node, s), Alone(now + k, store, node, last);
      LeadsOn(t, Alone(now + k - 1, store, node, last), u, d);
      assert node.(staged := {}) == node && last.(since := now + k) == s.(since := now + k);
      LeadsOn(t, u, Alone(now + k, store, node, s.(since := now + k)), d);
    }
  }

  // ----- the run -----

  const CLAIMED := map["sid" := 0]
  const START := Alone(0, map[], FRESH, Schedule(false, 0, map[], map[]))

  function Starting(now: int, building: bool): Timed {
    Alone(now, STORE, Up(TABLE, map[], map[], {}), Schedule(building, now, CLAIMED, map[]))
  }

  /** The conversation is in the table of node 1, with the key it was claimed with. */
  function Unrefreshed(now: int, building: bool, since: int, staged: set<Key>): Timed {
    Alone(now, STORE, Up(map[], TABLE, map[], staged), Schedule(building, since, CLAIMED, map[]))
  }

  function Closing(now: int, building: bool, since: int, staged: set<Key>, popped: int): Timed {
    Alone(now, STORE, Up(map[], map[], TABLE, staged), Schedule(building, since, CLAIMED, map["sid" := popped]))
  }

  lemma ClaimsLate(d: Delays)
    ensures Leads(START, Starting(d.register, false), d)
  {
    var node, s := Up(TABLE, map[], map[], {}), Schedule(false, 0, CLAIMED, map[]);
    assert SetKeys(map[], 0, {KEY}) == STORE;
    AloneActs(0, map[], FRESH, Schedule(false, 0, map[], map[]), Claim(1, "sid", "user"), STORE, node, s, d);
    AloneIdles(0, STORE, node, s, d.register, d);
    LeadsOn(START, Starting(0, false), Starting(d.register, false), d);
  }

  /** It is registered just after a pipeline was built, and misses it. */
  lemma RegistersTooLate(now: nat, d: Delays)
    ensures Leads(Starting(now, false), Unrefreshed(now, true, now, {}), d)
  {
    var node, s := Up(TABLE, map[], map[], {}), Schedule(true, now, CLAIMED, map[]);
    assert KeysOf(map[]) == {};
    AloneActs(now, STORE, node, Schedule(false, now, CLAIMED, map[]), Stage(1), STORE, node, s, d);
    assert TABLE - {"sid"} == map[];
    AloneActs(now, STORE, node, s, Register(1, "sid"), STORE, Up(map[], TABLE, map[], {}), s, d);
    LeadsOn(Starting(now, false), Starting(now, true), Unrefreshed(now, true, now, {}), d);
  }

  /** That pipeline is executed as late as allowed, without the key. */
  lemma FlushesWithout(now: nat, d: Delays)
    ensures var flushed := now + d.flush;
      Leads(Unrefreshed(now, true, now, {}), Unrefreshed(flushed, false, flushed, {}), d)
  {
    var node, s := Up(map[], TABLE, map[], {}), Schedule(true, now, CLAIMED, map[]);
    var flushed := now + d.flush;
    AloneWaits(now, STORE, node, s, d.flush, d);
    assert SetKeys(STORE, flushed, {}) == STORE;
    AloneActs(flushed, STORE, node, s, Flush(1), STORE, node, s.(building := false, since := flushed), d);
    LeadsOn(Unrefreshed(now, true, now, {}), Unrefreshed(flushed, true, now, {}), Unrefreshed(flushed, false, flushed, {}), d);
  }

  /** And the next is built as late as allowed. */
  lemma MissesPipeline(now: nat, d: Delays)
    ensures var built := now + d.flush + d.Pause();
      Leads(Unrefreshed(now, true, now, {}), Unrefreshed(built, true, built, {KEY}), d)
  {
    var node, s := Up(map[], TABLE, map[], {}), Schedule(false, now + d.flush, CLAIMED, map[]);
    var flushed, built := now + d.flush, now + d.flush + d.Pause();
    FlushesWithout(now, d);
    AloneWaits(flushed, STORE, node, s, d.Pause(), d);
    TableKeys();
    AloneActs(built, STORE, node, s, Stage(1), STORE, Up(map[], TABLE, map[], {KEY}), Schedule(true, built, CLAIMED, map[]), d);
    LeadsOn(Unrefreshed(flushed, false, flushed, {}), Unrefreshed(built, false, flushed, {}), Unrefreshed(built, true, built, {KEY}), d);
    LeadsOn(Unrefreshed(now, true, now, {}), Unrefreshed(flushed, false, flushed, {}), Unrefreshed(built, true, built, {KEY}), d);
  }

  /** This one is not executed until it is overdue, and then the session is closed. */
  lemma ClosesStaged(built: nat, d: Delays)
    ensures var closed := built + d.flush;
      Leads(Unrefreshed(built, true, built, {KEY}), Closing(closed, true, built, {KEY}, closed), d)
  {
    var closed := built + d.flush;
    var node, s := Up(map[], TABLE, map[], {KEY}), Schedule(true, built, CLAIMED, map[]);
    AloneWaits(built, STORE, node, s, d.flush, d);
    assert TABLE - {"sid"} == map[];
    AloneActs(closed, STORE, node, s, Pop(1, "sid"), STORE, Up(map[], map[], TABLE, {KEY}), s.(popped := map["sid" := closed]), d);
    LeadsOn(Unrefreshed(built, true, built, {KEY}), Unrefreshed(closed, true, built, {KEY}), Closing(closed, true, built, {KEY}, closed), d);
  }

  /** It fails; the pipeline that is built instead no longer covers the key. */
  lemma ClosesUnrefreshed(built: nat, d: Delays)
    ensures var closed := built + d.flush;
      Leads(Unrefreshed(built, true, built, {KEY}), Closing(closed, false, closed, {}, closed), d)
  {
    var closed := built + d.flush;
    var popped, rebuilt := Up(map[], map[], TABLE, {KEY}), Up(map[], map[], TABLE, {});
    var s := Schedule(true, built, CLAIMED, map["sid" := closed]);
    ClosesStaged(built, d);
    assert KeysOf(map[]) == {} && SetKeys(STORE, closed, {}) == STORE;
    AloneActs(closed, STORE, popped, s, Stage(1), STORE, rebuilt, s, d);
    AloneActs(closed, STORE, rebuilt, s, Flush(1), STORE, rebuilt, s.(building := false, since := closed), d);
    LeadsOn(Closing(closed, true, built, {KEY}, closed), Closing(closed, true, built, {}, closed), Closing(closed, false, closed, {}, closed), d);
    LeadsOn(Unrefreshed(built, true, built, {KEY}), Closing(closed, true, built, {KEY}, closed), Closing(closed, false, closed, {}, closed), d);
  }

  /** The key is not deleted before it has to be. */
  lemma DeletesLate(closed: nat, d: Delays)
    ensures Leads(Closing(closed, false, closed, {}, closed), Closing(closed + d.delete, false, closed + d.delete, {}, closed), d)
  {
    AloneIdles(closed, STORE, Up(map[], map[], TABLE, {}), Schedule(false, closed, CLAIMED, map["sid" := closed]), d.delete, d);
  }

  ghost predicate TakenBy(t: Timed, u: Timed, n: int) {
    && u.c.At(n).alive && "sid" in u.c.At(n).running && u.c.now == t.c.now
    && forall m :: m != n ==> u.c.At(m) == t.c.At(m)
  }

  /** A node that starts up, claims a conversation whose key is not live, and registers it. */
  lemma Takes(t: Timed, n: int, d: Delays)
    requires !t.c.At(n).alive && !Live(t.c.store, t.c.now, KEY)
    ensures exists u :: Leads(t, u, d) && TakenBy(t, u, n)
  {
    var t1 := TimedStep(t, Boot(n));
    assert t1.c.At(n) == FRESH && t1.c.store == t.c.store;
    var t2 := TimedStep(t1, Claim(n, "sid", "user"));
    assert t2.c.At(n).starting == map["sid" := "user"] && t2.c.At(n).alive;
    var t3 := TimedStep(t2, Register(n, "sid"));
    LeadsByStep(t, Boot(n), d);
    LeadsByStep(t1, Claim(n, "sid", "user"), d);
    LeadsByStep(t2, Register(n, "sid"), d);
    LeadsOn(t, t1, t2, d);
    LeadsOn(t, t2, t3, d);
    assert TakenBy(t, t3, n);
  }

  /**
   When the key has run out node 2 takes the conversation, node 1 deletes the key of node 2, and
   node 3 takes it too.
   */
  lemma TakenTwice(now: int, since: int, popped: int, d: Delays)
    requires now >= REDIS_ENTRY_TIMEOUT_SECONDS
    ensures exists u :: Leads(Closing(now, false, since, {}, popped), u, d) && RunsTwice(u.c, 2, 3, "sid")
  {
    var t := Closing(now, false, since, {}, popped);
    Takes(t, 2, d);
    var u :| Leads(t, u, d) && TakenBy(t, u, 2);
    assert u.c.At(1) == t.c.At(1) == Up(map[], map[], TABLE, {});
    assert u.c.At(3) == t.c.At(3) == DOWN;
    var v := TimedStep(u, Delete(1, "sid"));
    assert KEY !in v.c.store && v.c.At(2) == u.c.At(2) && v.c.At(3) == DOWN;
    LeadsByStep(u, Delete(1, "sid"), d);
    LeadsOn(t, u, v, d);
    Takes(v, 3, d);
    var w :| Leads(v, w, d) && TakenBy(v, w, 3);
    LeadsOn(t, v, w, d);
  }

  /** If the delays do not leave enough, some punctual run from an empty cluster has the conversation in two tables. */
  lemma BoundIsNeeded(d: Delays)
    requires !d.Enough()
    ensures TimedInitial(START)
    ensures exists events :: RunPunctual(START, events, Owner, d) && RunsTwice(TimedRun(START, events).c, 2, 3, "sid")
  {
    var built := d.register + d.flush + d.Pause();
    var closed := built + d.flush;
    ClaimsLate(d);
    RegistersTooLate(d.register, d);
    LeadsOn(START, Starting(d.register, false), Unrefreshed(d.register, true, d.register, {}), d);
    MissesPipeline(d.register, d);
    LeadsOn(START, Unrefreshed(d.register, true, d.register, {}), Unrefreshed(built, true, built, {KEY}), d);
    ClosesUnrefreshed(built, d);
    LeadsOn(START, Unrefreshed(built, true, built, {KEY}), Closing(closed, false, closed, {}, closed), d);
    DeletesLate(closed, d);
    var overdue := Closing(closed + d.delete, false, closed + d.delete, {}, closed);
    LeadsOn(START, Closing(closed, false, closed, {}, closed), overdue, d);
    TakenTwice(closed + d.delete, closed + d.delete, closed, d);
    var u :| Leads(overdue, u, d) && RunsTwice(u.c, 2, 3, "sid");
    LeadsOn(START, overdue, u, d);
  }
}

/**
 Why refreshing keeps a lease: the delays that the nodes allow themselves, and the bound on their sum
 under which a key never runs out while its conversation is held.

 A node builds a pipeline, executes it, sleeps 5 seconds and builds the next.  A conversation that
 is registered while a pipeline is being executed is covered only by the next one.  A pipeline that
 fails is built again.
 */
module ClusterTiming {
  import opened ClusterLease

  const REDIS_UPDATE_INTERVAL_SECONDS := 5

  /**
   The longest a node takes from a claim to the loop table, from waking up late to building a
   pipeline, from building to executing it, and from closing a session to deleting its key.
   */
  datatype Delays = Delays(register: nat, wake: nat, flush: nat, delete: nat)
  {
    function Pause(): nat { REDIS_UPDATE_INTERVAL_SECONDS + wake }

    /** A registration, two pipelines with the pause between them, and a deletion fit into the time to live. */
    predicate Enough() { register + Pause() + 2 * flush + delete < REDIS_ENTRY_TIMEOUT_SECONDS }
  }

  /** With the 5 seconds between pipelines and the 15 of an entry, 10 are left for everything else. */
  lemma EnoughExactly(d: Delays)
    ensures d.Enough() <==> d.register + d.wake + 2 * d.flush + d.delete < 10
  {
  }

  /**
   What a node's clock shows of its own doing: since when it has been executing a pipeline or
   sleeping, and when it made its claims and closed its sessions.
   */
  datatype Schedule = Schedule(building: bool, since: int, claimed: map<string, int>, popped: map<string, int>)

  datatype Timed = Timed(c: Cluster, schedules: map<int, Schedule>) {
    function Of(n: int): Schedule {
      if n in schedules then schedules[n] else Schedule(false, 0, map[], map[])
    }
  }

  function Note(t: Timed, e: Event): Schedule
    requires !e.Tick?
  {
    var node, s, now := t.c.At(e.n), t.Of(e.n), t.c.now;
    if e.Boot? then (if node.alive then s else Schedule(false, now, map[], map[]))
    else if !node.alive then s
    else match e
      case Claim(_, sid, user) => if Granted(t.c.store, now, node, sid, user) then s.(claimed := s.claimed[sid := now]) else s
      case Stage(_) => if s.building then s else s.(building := true, since := now)
      case Flush(_) => if s.building then s.(building := false, since := now) else s
      case Pop(_, sid) => if sid in node.running then s.(popped := s.popped[sid := now]) else s
      case _ => s
  }

  function TimedStep(t: Timed, e: Event): Timed {
    Timed(Step(t.c, e), if e.Tick? then t.schedules else t.schedules[e.n := Note(t, e)])
  }

  function TimedRun(t: Timed, events: seq<Event>): Timed
    decreases |events|
  {
    if events == [] then t else TimedRun(TimedStep(t, events[0]), events[1..])
  }

  // ----- punctual nodes -----

  /** Nothing the node has to do is overdue. */
  predicate NodePunctual(node: Node, s: Schedule, now: int, d: Delays) {
    node.alive ==>
      && s.since <= now <= s.since + (if s.building then d.flush else d.Pause())
      && (forall sid :: sid in node.starting ==> sid in s.claimed && s.claimed[sid] <= now <= s.claimed[sid] + d.register)
      && (forall sid :: sid in node.closing ==> sid in s.popped && s.popped[sid] <= now <= s.popped[sid] + d.delete)
  }

  ghost predicate Punctual(t: Timed, d: Delays) {
    forall n :: NodePunctual(t.c.At(n), t.Of(n), t.c.now, d)
  }

  /** The clock waits for the nodes to do what is due; claims name the owner of a conversation. */
  ghost predicate StepPunctual(t: Timed, e: Event, owner: string -> string, d: Delays) {
    NamesOwner(e, owner) && (e.Tick? ==> Punctual(TimedStep(t, e), d))
  }

  ghost predicate RunPunctual(t: Timed, events: seq<Event>, owner: string -> string, d: Delays)
    decreases |events|
  {
    events == [] || (StepPunctual(t, events[0], owner, d) && RunPunctual(TimedStep(t, events[0]), events[1..], owner, d))
  }

  ghost predicate TimedInitial(t: Timed) {
    Initial(t.c) && forall n :: t.c.At(n).alive ==> t.Of(n) == Schedule(false, t.c.now, map[], map[])
  }

  // ----- how long a key lasts -----

  /** A held key lasts at least until then. */
  function Floor(t: Timed, n: int, role: Role, key: Key, d: Delays): int
    requires role.Starting? ==> key.sid in t.Of(n).claimed
    requires role.Closing? ==> key.sid in t.Of(n).popped
  {
    var s := t.Of(n);
    match role
    case Starting => s.claimed[key.sid] + REDIS_ENTRY_TIMEOUT_SECONDS
    case Running =>
      var late := if !s.building then d.flush else if key in t.c.At(n).staged then d.Pause() + d.flush else 0;
      s.since + REDIS_ENTRY_TIMEOUT_SECONDS - d.register - late
    case Closing => s.popped[key.sid] + REDIS_ENTRY_TIMEOUT_SECONDS - d.register - d.Pause() - 2 * d.flush
  }

  ghost predicate Lasts(t: Timed, n: int, role: Role, key: Key, d: Delays) {
    && key.sid != "" && key in t.c.store
    && (role.Starting? ==> key.sid in t.Of(n).claimed)
    && (role.Closing? ==> key.sid in t.Of(n).popped)
    && t.c.store[key] >= Floor(t, n, role, key, d)
  }

  ghost predicate AllLast(t: Timed, d: Delays) {
    forall n, role, key :: Holds(t.c, n, role, key) ==> Lasts(t, n, role, key, d)
  }

  ghost predicate TimedInv(t: Timed, owner: string -> string, d: Delays) {
    Inv(t.c, owner) && Punctual(t, d) && AllLast(t, d)
  }

  /** Punctual nodes never hold a key that has run out. */
  lemma PunctualKeepsLive(t: Timed, d: Delays)
    requires d.Enough() && Punctual(t, d) && AllLast(t, d)
    ensures HeldIsLive(t.c)
  {
    forall n, role, key | Holds(t.c, n, role, key) ensures Live(t.c.store, t.c.now, key) {
      assert NodePunctual(t.c.At(n), t.Of(n), t.c.now, d) && Lasts(t, n, role, key, d);
    }
  }

  /** Only its holder's delete takes a held key away, and nothing shortens its life. */
  lemma HeldKeyLasts(t: Timed, e: Event, n: int, role: Role, key: Key)
    requires Exclusive(t.c) && HeldIsLive(t.c) && TtlBounded(t.c) && Holds(t.c, n, role, key)
    requires !(e == Delete(n, key.sid) && role == Closing)
    ensures key in t.c.store && key in TimedStep(t, e).c.store && TimedStep(t, e).c.store[key] >= t.c.store[key]
  {
    assert Live(t.c.store, t.c.now, key);
    if !e.Tick? {
      HeldKeyStays(t.c, e, n, role, key);
    }
  }

  lemma OthersKeepSchedule(t: Timed, e: Event, n: int)
    requires e.Tick? || e.n != n
    ensures TimedStep(t, e).Of(n) == t.Of(n) && TimedStep(t, e).c.At(n) == t.c.At(n)
  {
  }

  lemma StaysPunctual(t: Timed, e: Event, d: Delays)
    requires Punctual(t, d) && !e.Tick?
    ensures Punctual(TimedStep(t, e), d)
  {
    var t' := TimedStep(t, e);
    forall n ensures NodePunctual(t'.c.At(n), t'.Of(n), t'.c.now, d) {
      assert NodePunctual(t.c.At(n), t.Of(n), t.c.now, d);
      if n != e.n {
        OthersKeepSchedule(t, e, n);
      }
    }
  }

  predicate HasRunning(c: Cluster, n: int, sid: string) {
    sid in c.At(n).running
  }

  /** What its own node does to a conversation that it goes on holding. */
  lemma StillLastsHere(t: Timed, e: Event, owner: string -> string, d: Delays, n: int, role: Role, key: Key)
    requires d.Enough() && TimedInv(t, owner, d) && NamesOwner(e, owner) && !e.Tick? && e.n == n
    requires Holds(t.c, n, role, key) && Holds(TimedStep(t, e).c, n, role, key)
    requires key in TimedStep(t, e).c.store && TimedStep(t, e).c.store[key] >= t.c.store[key]
    ensures Lasts(TimedStep(t, e), n, role, key, d)
  {
    assert Lasts(t, n, role, key, d) && NodePunctual(t.c.At(n), t.Of(n), t.c.now, d);
    if e.Claim? && e.sid == key.sid {
      assert Live(t.c.store, t.c.now, key) && e.user == key.user;
    } else if role.Closing? && HasRunning(t.c, n, key.sid) {
      assert Holds(t.c, n, Running, Key(t.c.At(n).running[key.sid], key.sid));
    }
    match role
    case Starting =>
    case Running =>
    case Closing =>
  }

  /** A conversation that is held through a step, in the same role. */
  lemma StillLasts(t: Timed, e: Event, owner: string -> string, d: Delays, n: int, role: Role, key: Key)
    requires d.Enough() && TimedInv(t, owner, d) && StepPunctual(t, e, owner, d)
    requires Holds(t.c, n, role, key) && Holds(TimedStep(t, e).c, n, role, key)
    ensures Lasts(TimedStep(t, e), n, role, key, d)
  {
    assert Lasts(t, n, role, key, d);
    assert !(e == Delete(n, key.sid) && role == Closing);
    HeldKeyLasts(t, e, n, role, key);
    if e.Tick? || e.n != n {
      OthersKeepSchedule(t, e, n);
    } else {
      StillLastsHere(t, e, owner, d, n, role, key);
    }
  }

  /** A conversation that changes hands within its node, or is claimed. */
  lemma NewlyLasts(t: Timed, e: Event, owner: string -> string, d: Delays, n: int, role: Role, key: Key)
    requires d.Enough() && TimedInv(t, owner, d) && StepPunctual(t, e, owner, d)
    requires !Holds(t.c, n, role, key) && Holds(TimedStep(t, e).c, n, role, key)
    ensures Lasts(TimedStep(t, e), n, role, key, d)
  {
    HoldersAfter(t.c, e, n, role, key);
    assert NodePunctual(t.c.At(n), t.Of(n), t.c.now, d);
    if e.Register? {
      assert Lasts(t, n, Starting, key, d);
      HeldKeyLasts(t, e, n, Starting, key);
    } else if e.Pop? {
      assert Lasts(t, n, Running, key, d);
      HeldKeyLasts(t, e, n, Running, key);
    }
  }

  lemma TimedStepKeepsInv(t: Timed, e: Event, owner: string -> string, d: Delays)
    requires d.Enough() && TimedInv(t, owner, d) && StepPunctual(t, e, owner, d)
    ensures TimedInv(TimedStep(t, e), owner, d)
  {
    var t' := TimedStep(t, e);
    forall n, role, key | Holds(t'.c, n, role, key) ensures Lasts(t', n, role, key, d) {
      if Holds(t.c, n, role, key) {
        StillLasts(t, e, owner, d, n, role, key);
      } else {
        NewlyLasts(t, e, owner, d, n, role, key);
      }
    }
    if !e.Tick? {
      StaysPunctual(t, e, d);
    }
    PunctualKeepsLive(t', d);
    StepKeepsInv(t.c, e, owner);
  }

  lemma {:induction false} TimedRunKeepsInv(t: Timed, events: seq<Event>, owner: string -> string, d: Delays)
    requires d.Enough() && TimedInv(t, owner, d) && RunPunctual(t, events, owner, d)
    ensures TimedInv(TimedRun(t, events), owner, d)
    decreases |events|
  {
    if events != [] {
      TimedStepKeepsInv(t, events[0], owner, d);
      TimedRunKeepsInv(TimedStep(t, events[0]), events[1..], owner, d);
    }
  }

  lemma {:induction false} TimedRunRuns(t: Timed, events: seq<Event>)
    ensures TimedRun(t, events).c == Run(t.c, events)
    decreases |events|
  {
    if events != [] {
      TimedRunRuns(TimedStep(t, events[0]), events[1..]);
    }
  }

  // ----- safety -----

  /** Two nodes have the conversation in their tables of agent loops. */
  predicate RunsTwice(c: Cluster, n: int, n': int, sid: string) {
    n != n' && c.At(n).alive && sid in c.At(n).running && c.At(n').alive && sid in c.At(n').running
  }

  /**
   Safety: if the delays leave enough of the 15 seconds, then in every state that a punctual run
   reaches a conversation is in the table of at most one live node, and its key is live.
   */
  lemma LeaseSafety(t: Timed, events: seq<Event>, owner: string -> string, d: Delays, n: int, sid: string)
    requires d.Enough() && TimedInitial(t) && RunPunctual(t, events, owner, d)
    requires var r := TimedRun(t, events).c; r.At(n).alive && sid in r.At(n).running
    ensures var r := TimedRun(t, events).c;
      && Live(r.store, r.now, Key(r.At(n).running[sid], sid))
      && forall n' :: !RunsTwice(r, n, n', sid)
  {
    TimedRunKeepsInv(t, events, owner, d);
    var r := TimedRun(t, events).c;
    assert Holds(r, n, Running, Key(r.At(n).running[sid], sid));
    forall n' ensures !RunsTwice(r, n, n', sid) {
      if RunsTwice(r, n, n', sid) {
        assert Holds(r, n', Running, Key(r.At(n').running[sid], sid));
      }
    }
  }

  /** In such a run a node never takes away the key of a conversation that another live node holds. */
  lemma OnlyHolderDeletes(t: Timed, events: seq<Event>, e: Event, owner: string -> string, d: Delays, n: int, role: Role, key: Key)
    requires d.Enough() && TimedInitial(t) && RunPunctual(t, events, owner, d)
    requires var r := TimedRun(t, events).c; Holds(r, n, role, key) && key !in Step(r, e).store
    ensures e == Delete(n, key.sid) && role == Closing
  {
    TimedRunKeepsInv(t, events, owner, d);
    var r := TimedRun(t, events).c;
    assert Live(r.store, r.now, key);
    if !(e == Delete(n, key.sid) && role == Closing) && !e.Tick? {
      HeldKeyStays(r, e, n, role, key);
    }
  }

  // ----- the bound is exact -----

  lemma {:induction false} RunJoins(t: Timed, a: seq<Event>, b: seq<Event>, owner: string -> string, d: Delays)
    requires RunPunctual(t, a, owner, d) && RunPunctual(TimedRun(t, a), b, owner, d)
    ensures RunPunctual(t, a + b, owner, d) && TimedRun(t, a + b) == TimedRun(TimedRun(t, a), b)
    decreases |a|
  {
    if a == [] {
      assert a + b == b;
    } else {
      assert (a + b)[0] == a[0] && (a + b)[1..] == a[1..] + b;
      RunJoins(TimedStep(t, a[0]), a[1..], b, owner, d);
    }
  }

  function Ticks(k: nat): seq<Event> {
    if k == 0 then [] else [Tick] + Ticks(k - 1)
  }

  function Later(t: Timed, k: nat): Timed {
    t.(c := t.c.(now := t.c.now + k))
  }

  /** The clock may run until something is overdue. */
  lemma {:induction false} TicksRun(t: Timed, k: nat, owner: string -> string, d: Delays)
    requires Punctual(t, d) && Punctual(Later(t, k), d)
    ensures TimedRun(t, Ticks(k)) == Later(t, k) && RunPunctual(t, Ticks(k), owner, d)
    decreases k
  {
    if k > 0 {
      var next := Later(t, 1);
      assert TimedStep(t, Tick) == next;
      forall n ensures NodePunctual(next.c.At(n), next.Of(n), next.c.now, d) {
        assert NodePunctual(t.c.At(n), t.Of(n), t.c.now, d);
        assert NodePunctual(Later(t, k).c.At(n), Later(t, k).Of(n), Later(t, k).c.now, d);
      }
      assert Later(next, k - 1) == Later(t, k);
      TicksRun(next, k - 1, owner, d);
      assert Ticks(k)[1..] == Ticks(k - 1);
    }
  }
}

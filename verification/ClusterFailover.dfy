/** Failover: when survivors notice that a conversation has lost its node, and who restarts it. */
module ClusterFailover {
  import opened ClusterLease
  import opened ClusterTiming

  /** _disconnect_from_stopped: conversations with a local connection, no local loop and no live key. */
  function Stopped(c: Cluster, n: int): set<string> {
    (set connection | connection in c.At(n).connections :: c.At(n).connections[connection])
    - c.At(n).running.Keys
    - (set key | key in c.store && Live(c.store, c.now, key) :: key.sid)
  }

  /** In a punctual run no node reports a conversation that a live node holds. */
  lemma LiveOwnerNeverReported(t: Timed, events: seq<Event>, owner: string -> string, d: Delays, n: int, holder: int, role: Role, key: Key)
    requires d.Enough() && TimedInitial(t) && RunPunctual(t, events, owner, d)
    requires Holds(TimedRun(t, events).c, holder, role, key)
    ensures key.sid !in Stopped(TimedRun(t, events).c, n)
  {
    TimedRunKeepsInv(t, events, owner, d);
    assert Live(TimedRun(t, events).c.store, TimedRun(t, events).c.now, key);
  }

  // ----- what can set the key of a conversation that nobody holds -----

  ghost predicate Abandoned(c: Cluster, key: Key) {
    forall n, role :: !Holds(c, n, role, key)
  }

  /** A pipeline that carries the key is executed. */
  ghost predicate Revives(c: Cluster, e: Event, key: Key) {
    e.Flush? && c.At(e.n).alive && key in c.At(e.n).staged
  }

  ghost predicate Grants(c: Cluster, e: Event, key: Key) {
    e.Claim? && Key(e.user, e.sid) == key && Granted(c.store, c.now, c.At(e.n), e.sid, e.user)
  }

  /** Nobody restarts the conversation. */
  ghost predicate Unclaimed(c: Cluster, events: seq<Event>, key: Key)
    decreases |events|
  {
    events == [] || (!Grants(c, events[0], key) && Unclaimed(Step(c, events[0]), events[1..], key))
  }

  /** A pipeline that carries the key is executed less than 15 seconds before the run ends. */
  ghost predicate RevivedLately(c: Cluster, events: seq<Event>, key: Key)
    decreases |events|
  {
    events != [] &&
    ( || (Revives(c, events[0], key) && Run(c, events).now < c.now + REDIS_ENTRY_TIMEOUT_SECONDS)
      || RevivedLately(Step(c, events[0]), events[1..], key))
  }

  lemma StaysAbandoned(c: Cluster, e: Event, key: Key)
    requires Abandoned(c, key) && !Grants(c, e, key)
    ensures Abandoned(Step(c, e), key)
  {
    forall n, role ensures !Holds(Step(c, e), n, role, key) {
      if Holds(Step(c, e), n, role, key) {
        HoldersAfter(c, e, n, role, key);
      }
    }
  }

  lemma AbandonedStep(c: Cluster, e: Event, key: Key)
    requires Abandoned(c, key) && !Grants(c, e, key)
    ensures Revives(c, e, key) ==> key in Step(c, e).store && Step(c, e).store[key] == c.now + REDIS_ENTRY_TIMEOUT_SECONDS
    ensures !Revives(c, e, key) ==> (key in Step(c, e).store <==> key in c.store)
    ensures !Revives(c, e, key) && key in c.store ==> Step(c, e).store[key] == c.store[key]
  {
    if e.Delete? && c.At(e.n).alive && e.sid in c.At(e.n).closing {
      assert Holds(c, e.n, Closing, Key(c.At(e.n).closing[e.sid], e.sid));
    }
  }

  /** The key of an abandoned conversation is live exactly as long as it was, or while a pipeline has set it lately. */
  lemma {:induction false} AbandonedKey(c: Cluster, events: seq<Event>, key: Key)
    requires Abandoned(c, key) && Unclaimed(c, events, key) && TtlBounded(c)
    ensures var r := Run(c, events);
      && Abandoned(r, key)
      && (Live(r.store, r.now, key) <==> (key in c.store && r.now < c.store[key]) || RevivedLately(c, events, key))
    decreases |events|
  {
    if events != [] {
      var next := Step(c, events[0]);
      StaysAbandoned(c, events[0], key);
      AbandonedStep(c, events[0], key);
      AbandonedKey(next, events[1..], key);
    }
  }

  // ----- a crash -----

  predicate Connected(c: Cluster, n: int, sid: string) {
    c.At(n).alive && exists connection :: connection in c.At(n).connections && c.At(n).connections[connection] == sid
  }

  lemma ReportedUnlessLive(c: Cluster, owner: string -> string, n: int, key: Key)
    requires OwnedBy(c, owner) && key.user == owner(key.sid) && Abandoned(c, key) && Connected(c, n, key.sid)
    ensures key.sid in Stopped(c, n) <==> !Live(c.store, c.now, key)
  {
    if key.sid in c.At(n).running {
      assert Holds(c, n, Running, Key(c.At(n).running[key.sid], key.sid));
    }
    forall k | k in c.store && Live(c.store, c.now, k) && k.sid == key.sid ensures k == key {
    }
  }

  lemma CrashAbandons(c: Cluster, holder: int, key: Key)
    requires forall m, r :: Holds(c, m, r, key) ==> m == holder
    ensures Abandoned(Step(c, Crash(holder)), key)
  {
    forall m, r ensures !Holds(Step(c, Crash(holder)), m, r, key) {
      if Holds(Step(c, Crash(holder)), m, r, key) {
        HoldersAfter(c, Crash(holder), m, r, key);
      }
    }
  }

  /**
   Whatever the timing: the only holder of a conversation crashes, nobody restarts it, and 15 seconds
   or more have passed.  Then a connected survivor reports it if and only if no pipeline that carries
   the key was executed within the last 15 seconds.
   */
  lemma CrashReportedExactly(start: Cluster, before: seq<Event>, after: seq<Event>, owner: string -> string,
                             holder: int, role: Role, key: Key, n: int)
    requires Initial(start) && NameOwners(before, owner) && NameOwners(after, owner)
    requires var c := Run(start, before);
      Holds(c, holder, role, key) && forall m, r :: Holds(c, m, r, key) ==> m == holder
    requires var c := Run(start, before); var crashed := Step(c, Crash(holder));
      && Unclaimed(crashed, after, key)
      && Run(crashed, after).now >= c.now + REDIS_ENTRY_TIMEOUT_SECONDS
      && Connected(Run(crashed, after), n, key.sid)
    ensures var crashed := Step(Run(start, before), Crash(holder));
      key.sid in Stopped(Run(crashed, after), n) <==> !RevivedLately(crashed, after, key)
  {
    var c := Run(start, before);
    var crashed := Step(c, Crash(holder));
    RunKeepsTidy(start, before, owner);
    StepKeepsTidy(c, Crash(holder), owner);
    RunKeepsTidy(crashed, after, owner);
    CrashAbandons(c, holder, key);
    AbandonedKey(crashed, after, key);
    assert crashed.store == c.store;
    ReportedUnlessLive(Run(crashed, after), owner, n, key);
  }

  // ----- late pipelines -----

  ghost predicate Unstaged(c: Cluster, key: Key) {
    forall n :: c.At(n).alive ==> key !in c.At(n).staged
  }

  lemma StaysUnstaged(c: Cluster, e: Event, key: Key)
    requires Abandoned(c, key) && Unstaged(c, key)
    ensures Unstaged(Step(c, e), key)
  {
    var c' := Step(c, e);
    forall n | c'.At(n).alive ensures key !in c'.At(n).staged {
      if key in c'.At(n).staged && key !in c.At(n).staged {
        assert Holds(c, n, Running, key);
      }
    }
  }

  lemma {:induction false} UnstagedNeverRevived(c: Cluster, events: seq<Event>, key: Key)
    requires Abandoned(c, key) && Unstaged(c, key) && Unclaimed(c, events, key)
    ensures !RevivedLately(c, events, key)
    decreases |events|
  {
    if events != [] {
      StaysAbandoned(c, events[0], key);
      StaysUnstaged(c, events[0], key);
      UnstagedNeverRevived(Step(c, events[0]), events[1..], key);
    }
  }

  lemma {:induction false} TicksKeep(c: Cluster, k: nat, tail: seq<Event>, key: Key)
    ensures Run(c, Ticks(k) + tail) == Run(c.(now := c.now + k), tail)
    ensures Unclaimed(c, Ticks(k) + tail, key) <==> Unclaimed(c.(now := c.now + k), tail, key)
    ensures RevivedLately(c.(now := c.now + k), tail, key) ==> RevivedLately(c, Ticks(k) + tail, key)
    decreases k
  {
    if k == 0 {
      assert Ticks(0) + tail == tail;
    } else {
      assert (Ticks(k) + tail)[0] == Tick && (Ticks(k) + tail)[1..] == Ticks(k - 1) + tail;
      TicksKeep(Step(c, Tick), k - 1, tail, key);
    }
  }

  /** A node that carries the key in a pipeline can execute it after any wait, and hide the crash. */
  lemma StagedCanHide(c: Cluster, late: int, key: Key, k: nat)
    requires c.At(late).alive && key in c.At(late).staged
    ensures var events := Ticks(k) + [Flush(late)];
      && Unclaimed(c, events, key) && RevivedLately(c, events, key) && Run(c, events).now == c.now + k
      && forall n :: key.sid !in Stopped(Run(c, events), n)
  {
    var waited := c.(now := c.now + k);
    var flushed := Step(waited, Flush(late));
    TicksKeep(c, k, [Flush(late)], key);
    assert [Flush(late)][1..] == [];
    assert Run(flushed, []) == flushed && Run(waited, [Flush(late)]) == flushed;
    assert Unclaimed(flushed, [], key) && Unclaimed(waited, [Flush(late)], key);
    assert Revives(waited, Flush(late), key) && RevivedLately(waited, [Flush(late)], key);
    assert Live(flushed.store, flushed.now, key);
  }

  ghost predicate NeverHidden(c: Cluster, key: Key) {
    forall events :: Unclaimed(c, events, key) ==> !RevivedLately(c, events, key)
  }

  /** A crash is sure to be reported, if nobody restarts the conversation, exactly when no live node carries its key in a pipeline. */
  lemma SureToBeReportedExactly(c: Cluster, key: Key)
    requires Abandoned(c, key)
    ensures NeverHidden(c, key) <==> Unstaged(c, key)
  {
    if Unstaged(c, key) {
      forall events | Unclaimed(c, events, key) ensures !RevivedLately(c, events, key) {
        UnstagedNeverRevived(c, events, key);
      }
    } else {
      var late :| c.At(late).alive && key in c.At(late).staged;
      StagedCanHide(c, late, key, 0);
    }
  }

  const KEY := Key("user", "sid")
  const TABLE := map["sid" := "user"]
  const HANDED_OVER := [
    Claim(1, "sid", "user"), Register(1, "sid"), Stage(1), Pop(1, "sid"), Delete(1, "sid"),
    Claim(2, "sid", "user"), Register(2, "sid"), Connect(3, "connection", "sid")]

  /** A cluster of three nodes, of which the third may have a connection. */
  function Three(now: int, store: Store, first: Node, second: Node, connections: map<string, string>): Cluster {
    Cluster(now, store, map[1 := first, 2 := second, 3 := FRESH.(connections := connections)])
  }

  /** Where the hand-over leads: node 2 has the conversation, node 1 a stale pipeline, node 3 a connection. */
  function AfterHandOver(now: int): Cluster {
    Three(now, map[KEY := now + REDIS_ENTRY_TIMEOUT_SECONDS], FRESH.(staged := {KEY}), FRESH.(running := TABLE), map["connection" := "sid"])
  }

  lemma {:induction false} RunJoin(c: Cluster, a: seq<Event>, b: seq<Event>)
    ensures Run(c, a + b) == Run(Run(c, a), b)
    decreases |a|
  {
    if a == [] {
      assert a + b == b;
    } else {
      assert (a + b)[0] == a[0] && (a + b)[1..] == a[1..] + b;
      RunJoin(Step(c, a[0]), a[1..], b);
    }
  }

  lemma OneStep(c: Cluster, before: seq<Event>, mid: Cluster, e: Event)
    requires Run(c, before) == mid
    ensures Run(c, before + [e]) == Step(mid, e)
  {
    RunJoin(c, before, [e]);
    assert [e][1..] == [];
    assert Run(Step(mid, e), []) == Step(mid, e);
  }

  lemma TableKeys()
    ensures KeysOf(TABLE) == {KEY}
  {
    assert "sid" in TABLE && TABLE["sid"] == "user" && "sid" != "";
    assert KEY in KeysOf(TABLE);
  }

  /** Node 1 starts the conversation. */
  lemma FirstStarts(now: int)
    ensures Run(Three(now, map[], FRESH, FRESH, map[]), [Claim(1, "sid", "user"), Register(1, "sid")])
            == Three(now, map[KEY := now + REDIS_ENTRY_TIMEOUT_SECONDS], FRESH.(running := TABLE), FRESH, map[])
  {
    var start := Three(now, map[], FRESH, FRESH, map[]);
    var store := map[KEY := now + REDIS_ENTRY_TIMEOUT_SECONDS];
    var claimed := Three(now, store, FRESH.(starting := TABLE), FRESH, map[]);
    assert Step(start, Claim(1, "sid", "user")) == claimed;
    assert TABLE - {"sid"} == map[];
    assert Step(claimed, Register(1, "sid")) == Three(now, store, FRESH.(running := TABLE), FRESH, map[]);
    OneStep(start, [], start, Claim(1, "sid", "user"));
    assert [] + [Claim(1, "sid", "user")] == [Claim(1, "sid", "user")];
    OneStep(start, [Claim(1, "sid", "user")], claimed, Register(1, "sid"));
    assert [Claim(1, "sid", "user")] + [Register(1, "sid")] == [Claim(1, "sid", "user"), Register(1, "sid")];
  }

  /** It builds a pipeline and closes the conversation. */
  lemma FirstCloses(now: int)
    ensures Run(Three(now, map[KEY := now + REDIS_ENTRY_TIMEOUT_SECONDS], FRESH.(running := TABLE), FRESH, map[]),
                [Stage(1), Pop(1, "sid"), Delete(1, "sid")])
            == Three(now, map[], FRESH.(staged := {KEY}), FRESH, map[])
  {
    var store := map[KEY := now + REDIS_ENTRY_TIMEOUT_SECONDS];
    var start := Three(now, store, FRESH.(running := TABLE), FRESH, map[]);
    var staged := Three(now, store, FRESH.(running := TABLE, staged := {KEY}), FRESH, map[]);
    var popped := Three(now, store, FRESH.(closing := TABLE, staged := {KEY}), FRESH, map[]);
    TableKeys();
    assert Step(start, Stage(1)) == staged;
    assert TABLE - {"sid"} == map[] && store - {KEY} == map[];
    assert Step(staged, Pop(1, "sid")) == popped;
    assert Step(popped, Delete(1, "sid")) == Three(now, map[], FRESH.(staged := {KEY}), FRESH, map[]);
    OneStep(start, [], start, Stage(1));
    assert [] + [Stage(1)] == [Stage(1)];
    OneStep(start, [Stage(1)], staged, Pop(1, "sid"));
    OneStep(start, [Stage(1)] + [Pop(1, "sid")], popped, Delete(1, "sid"));
    assert [Stage(1)] + [Pop(1, "sid")] + [Delete(1, "sid")] == [Stage(1), Pop(1, "sid"), Delete(1, "sid")];
  }

  lemma SecondSteps(now: int)
    ensures var store := map[KEY := now + REDIS_ENTRY_TIMEOUT_SECONDS];
      var claimed := Three(now, store, FRESH.(staged := {KEY}), FRESH.(starting := TABLE), map[]);
      var registered := Three(now, store, FRESH.(staged := {KEY}), FRESH.(running := TABLE), map[]);
      && Step(Three(now, map[], FRESH.(staged := {KEY}), FRESH, map[]), Claim(2, "sid", "user")) == claimed
      && Step(claimed, Register(2, "sid")) == registered
      && Step(registered, Connect(3, "connection", "sid")) == AfterHandOver(now)
  {
    assert TABLE - {"sid"} == map[];
  }

  /** Then node 2 starts it, and a client of node 3 connects to it. */
  lemma SecondOwner(now: int)
    ensures Run(Three(now, map[], FRESH.(staged := {KEY}), FRESH, map[]),
                [Claim(2, "sid", "user"), Register(2, "sid"), Connect(3, "connection", "sid")]) == AfterHandOver(now)
  {
    var start := Three(now, map[], FRESH.(staged := {KEY}), FRESH, map[]);
    var store := map[KEY := now + REDIS_ENTRY_TIMEOUT_SECONDS];
    var c1 := Three(now, store, FRESH.(staged := {KEY}), FRESH.(starting := TABLE), map[]);
    var c2 := Three(now, store, FRESH.(staged := {KEY}), FRESH.(running := TABLE), map[]);
    SecondSteps(now);
    var events := [Claim(2, "sid", "user")];
    OneStep(start, [], start, events[0]);
    assert [] + events == events;
    OneStep(start, events, c1, Register(2, "sid"));
    OneStep(start, events + [Register(2, "sid")], c2, Connect(3, "connection", "sid"));
    assert events + [Register(2, "sid")] + [Connect(3, "connection", "sid")]
        == [Claim(2, "sid", "user"), Register(2, "sid"), Connect(3, "connection", "sid")];
  }

  lemma HandedOver(now: int)
    ensures Run(Three(now, map[], FRESH, FRESH, map[]), HANDED_OVER) == AfterHandOver(now)
  {
    var a := [Claim(1, "sid", "user"), Register(1, "sid")];
    var b := [Stage(1), Pop(1, "sid"), Delete(1, "sid")];
    var c := [Claim(2, "sid", "user"), Register(2, "sid"), Connect(3, "connection", "sid")];
    FirstStarts(now);
    FirstCloses(now);
    SecondOwner(now);
    RunJoin(Three(now, map[], FRESH, FRESH, map[]), a, b);
    RunJoin(Three(now, map[], FRESH, FRESH, map[]), a + b, c);
    assert HANDED_OVER == a + b + c;
  }

  lemma {:induction false} RunSnoc(c: Cluster, events: seq<Event>, e: Event, key: Key)
    ensures Run(c, events + [e]) == Step(Run(c, events), e)
    ensures Unclaimed(c, events, key) && !e.Claim? ==> Unclaimed(c, events + [e], key)
    decreases |events|
  {
    if events == [] {
      assert (events + [e])[0] == e && (events + [e])[1..] == [];
      assert Run(Step(c, e), []) == Step(c, e) && Unclaimed(Step(c, e), [], key);
    } else {
      assert (events + [e])[0] == events[0] && (events + [e])[1..] == events[1..] + [e];
      RunSnoc(Step(c, events[0]), events[1..], e, key);
    }
  }

  /** Node 2 crashes; 14 seconds later the stale pipeline arrives, and a second later the scan finds its key. */
  lemma StalePipelineArrives(now: int)
    ensures var crashed := Step(AfterHandOver(now), Crash(2));
      var after := Ticks(14) + [Flush(1)] + [Tick];
      && Unclaimed(crashed, after, KEY)
      && Run(crashed, after).now == now + REDIS_ENTRY_TIMEOUT_SECONDS
      && Connected(Run(crashed, after), 3, "sid") && "sid" !in Stopped(Run(crashed, after), 3)
  {
    var crashed := Step(AfterHandOver(now), Crash(2));
    var events := Ticks(14) + [Flush(1)];
    StagedCanHide(crashed, 1, KEY, 14);
    var waited := crashed.(now := now + 14);
    var flushed := Step(waited, Flush(1));
    TicksKeep(crashed, 14, [Flush(1)], KEY);
    assert [Flush(1)][1..] == [];
    assert Run(flushed, []) == flushed;
    assert Run(crashed, events) == flushed;
    RunSnoc(crashed, events, Tick, KEY);
    var r := Step(flushed, Tick);
    assert KEY in r.store && Live(r.store, r.now, KEY) && KEY.sid == "sid";
    assert r.At(3).connections == map["connection" := "sid"] && r.At(3).connections["connection"] == "sid";
  }

  lemma SecondOwnerIsSole(now: int)
    ensures Holds(AfterHandOver(now), 2, Running, KEY) && Abandoned(Step(AfterHandOver(now), Crash(2)), KEY)
  {
    var c := AfterHandOver(now);
    forall m, r | Holds(c, m, r, KEY) ensures m == 2 {
      assert c.At(1).Table(r) == map[] && c.At(3).Table(r) == map[];
    }
    CrashAbandons(c, 2, KEY);
  }

  ghost predicate HidesCrash(start: Cluster, before: seq<Event>, holder: int, key: Key, after: seq<Event>, n: int) {
    var c := Run(start, before);
    var crashed := Step(c, Crash(holder));
    && Holds(c, holder, Running, key) && Abandoned(crashed, key) && Unclaimed(crashed, after, key)
    && Run(crashed, after).now == c.now + REDIS_ENTRY_TIMEOUT_SECONDS
    && Connected(Run(crashed, after), n, key.sid) && key.sid !in Stopped(Run(crashed, after), n)
  }

  lemma HidesFrom(start: Cluster, before: seq<Event>, c: Cluster, after: seq<Event>)
    requires Run(start, before) == c && Holds(c, 2, Running, KEY)
    requires var crashed := Step(c, Crash(2));
      && Abandoned(crashed, KEY) && Unclaimed(crashed, after, KEY)
      && Run(crashed, after).now == c.now + REDIS_ENTRY_TIMEOUT_SECONDS
      && Connected(Run(crashed, after), 3, "sid") && "sid" !in Stopped(Run(crashed, after), 3)
    ensures HidesCrash(start, before, 2, KEY, after, 3)
  {
  }

  /**
   It does happen, from an empty cluster of three nodes: the pipeline of an earlier owner arrives 14
   seconds after the crash of the present one, and nobody reports the crash at 15 seconds.
   */
  lemma LatePipelineHidesCrash(now: int)
    ensures Initial(Three(now, map[], FRESH, FRESH, map[]))
    ensures HidesCrash(Three(now, map[], FRESH, FRESH, map[]), HANDED_OVER, 2, KEY, Ticks(14) + [Flush(1)] + [Tick], 3)
  {
    assert FRESH.(connections := map[]) == FRESH;
    HandedOver(now);
    SecondOwnerIsSole(now);
    StalePipelineArrives(now);
    HidesFrom(Three(now, map[], FRESH, FRESH, map[]), HANDED_OVER, AfterHandOver(now), Ticks(14) + [Flush(1)] + [Tick]);
  }

  // ----- punctual pipelines -----

  /** What carries an abandoned key was built before `limit`, and is executed or dropped soon after. */
  ghost predicate StagedBy(t: Timed, key: Key, limit: int) {
    forall n :: t.c.At(n).alive && key in t.c.At(n).staged ==> t.Of(n).building && t.Of(n).since <= limit
  }

  lemma {:induction false} RevivedSoonOrNever(t: Timed, events: seq<Event>, key: Key, owner: string -> string, d: Delays, limit: int)
    requires Abandoned(t.c, key) && Unclaimed(t.c, events, key) && StagedBy(t, key, limit)
    requires Punctual(t, d) && RunPunctual(t, events, owner, d)
    requires Run(t.c, events).now >= limit + d.flush + REDIS_ENTRY_TIMEOUT_SECONDS
    ensures !RevivedLately(t.c, events, key)
    decreases |events|
  {
    if events != [] {
      var e, next := events[0], TimedStep(t, events[0]);
      StaysAbandoned(t.c, e, key);
      if !e.Tick? {
        StaysPunctual(t, e, d);
        assert NodePunctual(t.c.At(e.n), t.Of(e.n), t.c.now, d);
      }
      forall n | next.c.At(n).alive && key in next.c.At(n).staged ensures next.Of(n).building && next.Of(n).since <= limit {
        if e.Tick? || e.n != n {
          OthersKeepSchedule(t, e, n);
        } else if key !in t.c.At(n).staged {
          assert Holds(t.c, n, Running, key);
        }
      }
      RevivedSoonOrNever(next, events[1..], key, owner, d, limit);
    }
  }

  /** In a run a pipeline that carries anything is being executed. */
  ghost predicate StagedBuilds(t: Timed) {
    forall n :: t.c.At(n).alive && t.c.At(n).staged != {} ==> t.Of(n).building
  }

  lemma {:induction false} RunStagedBuilds(t: Timed, events: seq<Event>)
    requires StagedBuilds(t)
    ensures StagedBuilds(TimedRun(t, events))
    decreases |events|
  {
    if events != [] {
      var next := TimedStep(t, events[0]);
      forall n | next.c.At(n).alive && next.c.At(n).staged != {} ensures next.Of(n).building {
        if events[0].Tick? || events[0].n != n {
          OthersKeepSchedule(t, events[0], n);
        }
      }
      RunStagedBuilds(next, events[1..]);
    }
  }

  /** After the crash, what still carries the key was built before it. */
  lemma StagedBeforeCrash(u: Timed, d: Delays, holder: int, key: Key)
    requires Punctual(u, d) && StagedBuilds(u)
    ensures StagedBy(TimedStep(u, Crash(holder)), key, u.c.now)
  {
    var crashed := TimedStep(u, Crash(holder));
    forall m | crashed.c.At(m).alive && key in crashed.c.At(m).staged
      ensures crashed.Of(m).building && crashed.Of(m).since <= u.c.now
    {
      if m != holder {
        OthersKeepSchedule(u, Crash(holder), m);
        assert NodePunctual(u.c.At(m), u.Of(m), u.c.now, d);
      }
    }
  }

  lemma AbandonedIsReported(t: Timed, events: seq<Event>, owner: string -> string, d: Delays, key: Key, n: int)
    requires d.Enough() && TimedInv(t, owner, d) && RunPunctual(t, events, owner, d)
    requires Abandoned(t.c, key) && key.user == owner(key.sid) && Unclaimed(t.c, events, key) && StagedBy(t, key, t.c.now)
    requires var r := TimedRun(t, events).c;
      r.now >= t.c.now + d.flush + REDIS_ENTRY_TIMEOUT_SECONDS && Connected(r, n, key.sid)
    ensures key.sid in Stopped(TimedRun(t, events).c, n)
  {
    TimedRunRuns(t, events);
    TimedRunKeepsInv(t, events, owner, d);
    RevivedSoonOrNever(t, events, key, owner, d, t.c.now);
    AbandonedKey(t.c, events, key);
    ReportedUnlessLive(TimedRun(t, events).c, owner, n, key);
  }

  /** What holds right after the crash of a holder in a punctual run. */
  lemma AfterCrash(t: Timed, before: seq<Event>, owner: string -> string, d: Delays, holder: int, role: Role, key: Key)
    requires d.Enough() && TimedInitial(t) && RunPunctual(t, before, owner, d) && Holds(TimedRun(t, before).c, holder, role, key)
    ensures var crashed := TimedStep(TimedRun(t, before), Crash(holder));
      && TimedInv(crashed, owner, d) && Abandoned(crashed.c, key) && StagedBy(crashed, key, crashed.c.now)
      && key.user == owner(key.sid)
  {
    var u := TimedRun(t, before);
    TimedRunKeepsInv(t, before, owner, d);
    RunStagedBuilds(t, before);
    TimedStepKeepsInv(u, Crash(holder), owner, d);
    CrashAbandons(u.c, holder, key);
    StagedBeforeCrash(u, d, holder, key);
  }

  /**
   Among punctual nodes a crash at time t is reported by every connected survivor that scans at
   t + 15 plus the longest execution of a pipeline, or later, if nobody restarted the conversation.
   */
  lemma CrashIsReported(t: Timed, before: seq<Event>, after: seq<Event>, owner: string -> string, d: Delays,
                        holder: int, role: Role, key: Key, n: int)
    requires d.Enough() && TimedInitial(t) && RunPunctual(t, before, owner, d) && Holds(TimedRun(t, before).c, holder, role, key)
    requires var crashed := TimedStep(TimedRun(t, before), Crash(holder));
      && RunPunctual(crashed, after, owner, d) && Unclaimed(crashed.c, after, key)
      && TimedRun(crashed, after).c.now >= crashed.c.now + d.flush + REDIS_ENTRY_TIMEOUT_SECONDS
      && Connected(TimedRun(crashed, after).c, n, key.sid)
    ensures key.sid in Stopped(TimedRun(TimedStep(TimedRun(t, before), Crash(holder)), after).c, n)
  {
    AfterCrash(t, before, owner, d, holder, role, key);
    AbandonedIsReported(TimedStep(TimedRun(t, before), Crash(holder)), after, owner, d, key, n);
  }

  // ----- racing to restart -----

  /** The step by which a holder gives the conversation up. */
  ghost predicate Releases(c: Cluster, e: Event, key: Key) {
    || (e.Pop? && Holds(c, e.n, Running, key) && e.sid == key.sid)
    || (e.Crash? && exists role :: Holds(c, e.n, role, key))
  }

  ghost predicate NeverReleased(c: Cluster, events: seq<Event>, key: Key)
    decreases |events|
  {
    events == [] || (!Releases(c, events[0], key) && NeverReleased(Step(c, events[0]), events[1..], key))
  }

  ghost function Starts(c: Cluster, events: seq<Event>, key: Key): nat
    decreases |events|
  {
    if events == [] then 0
    else (if Grants(c, events[0], key) then 1 else 0) + Starts(Step(c, events[0]), events[1..], key)
  }

  ghost predicate Attempted(c: Cluster, events: seq<Event>, key: Key)
    decreases |events|
  {
    events != [] &&
    ( || (events[0].Claim? && c.At(events[0].n).alive && Key(events[0].user, events[0].sid) == key)
      || Attempted(Step(c, events[0]), events[1..], key))
  }

  /** A holder that releases nothing keeps the conversation, at most moving it from its claims to its table. */
  lemma WinnerKeeps(c: Cluster, e: Event, owner: string -> string, key: Key, n: int, role: Role)
    requires Inv(c, owner) && NamesOwner(e, owner)
    requires Holds(c, n, role, key) && role != Closing && !Releases(c, e, key)
    ensures Holds(Step(c, e), n, role, key) || (e == Register(n, key.sid) && Holds(Step(c, e), n, Running, key))
  {
    assert Live(c.store, c.now, key);
    if key.sid in c.At(n).starting {
      assert Holds(c, n, Starting, Key(c.At(n).starting[key.sid], key.sid));
    }
  }

  /** As long as the winner keeps the conversation, every other claim is refused. */
  lemma {:induction false} NoSecondStart(t: Timed, events: seq<Event>, owner: string -> string, d: Delays, key: Key, n: int, role: Role)
    requires d.Enough() && TimedInv(t, owner, d) && RunPunctual(t, events, owner, d) && NeverReleased(t.c, events, key)
    requires Holds(t.c, n, role, key) && role != Closing
    ensures Starts(t.c, events, key) == 0
    ensures var r := Run(t.c, events); Holds(r, n, Starting, key) || Holds(r, n, Running, key)
    decreases |events|
  {
    if events != [] {
      var e, next := events[0], TimedStep(t, events[0]);
      TimedStepKeepsInv(t, e, owner, d);
      WinnerKeeps(t.c, e, owner, key, n, role);
      assert Live(t.c.store, t.c.now, key);
      NoSecondStart(next, events[1..], owner, d, key, n, if Holds(next.c, n, role, key) then role else Running);
    }
  }

  /**
   Of any number of punctual nodes that race to restart an abandoned conversation whose key has run
   out, exactly one starts the loop.
   */
  lemma {:induction false} ExactlyOneStarts(t: Timed, events: seq<Event>, owner: string -> string, d: Delays, key: Key)
    requires d.Enough() && TimedInv(t, owner, d) && RunPunctual(t, events, owner, d) && NeverReleased(t.c, events, key)
    requires Abandoned(t.c, key) && !Live(t.c.store, t.c.now, key) && Unstaged(t.c, key)
    ensures Starts(t.c, events, key) == if Attempted(t.c, events, key) then 1 else 0
    decreases |events|
  {
    if events != [] {
      var e, next := events[0], TimedStep(t, events[0]);
      TimedStepKeepsInv(t, e, owner, d);
      if Grants(t.c, e, key) {
        assert Holds(next.c, e.n, Starting, key);
        NoSecondStart(next, events[1..], owner, d, key, e.n, Starting);
      } else {
        StaysAbandoned(t.c, e, key);
        StaysUnstaged(t.c, e, key);
        AbandonedStep(t.c, e, key);
        ExactlyOneStarts(next, events[1..], owner, d, key);
      }
    }
  }
}

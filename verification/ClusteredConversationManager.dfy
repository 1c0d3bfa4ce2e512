/**
 The conversation manager of one server, over the Redis store it shares with the others.  Each
 method carries the node from one state of the lease protocol to the next.
 */
module ClusteredConversationManager {
  import opened Wrappers
  import opened ClusterFailover
  import opened ClusterLease

  class Redis {
    var now: int
    var entries: Store

    constructor (now: int)
      ensures this.now == now && entries == map[]
    {
      this.now := now;
      entries := map[];
    }

    method SetNx(key: Key) returns (created: bool)
      modifies this`entries
      ensures created == !Live(old(entries), now, key)
      ensures entries == if created then SetKeys(old(entries), now, {key}) else old(entries)
    {
      created := !Live(entries, now, key);
      if created {
        entries := entries[key := now + REDIS_ENTRY_TIMEOUT_SECONDS];
        assert entries == SetKeys(old(entries), now, {key});
      }
    }

    /** The keys a SCAN returns: those that have not expired. */
    function Scan(): (keys: set<Key>)
      reads this
      ensures forall key :: key in keys <==> Live(entries, now, key)
    {
      set key | key in entries && Live(entries, now, key)
    }
  }

  datatype StartOutcome = StartedHere | RunsLocally | RunsElsewhere | NoEventStream

  lemma {:induction false} SameSizeSubset<T>(a: set<T>, b: set<T>)
    requires a <= b && |a| == |b|
    ensures a == b
  {
    assert a + (b - a) == b;
    assert |b| == |a| + |b - a|;
  }

  class Manager {
    const redis: Redis
    var starting: map<string, string>
    var running: map<string, string>
    var closing: map<string, string>
    var staged: set<Key>
    var connections: map<string, string>

    constructor (redis: Redis)
      ensures this.redis == redis && View() == FRESH
    {
      this.redis := redis;
      starting, running, closing := map[], map[], map[];
      staged, connections := {}, map[];
    }

    ghost function View(): Node
      reads this
    {
      Node(true, starting, running, closing, staged, connections)
    }

    /** The node and the store after the protocol events `events` of this node. */
    static ghost function After(node: Node, store: Store, now: int, events: seq<Event>): (Node, Store)
      decreases |events|
    {
      if events == [] then (node, store)
      else
        var (node', store') := NodeStep(node, store, now, events[0]);
        After(node', store', now, events[1..])
    }

    /**
     maybe_start_agent_loop: start the loop here only if the key could be created.  The key that
     refused it is read again `elapsed` seconds later, and may have expired.
     */
    method MaybeStartAgentLoop(n: int, sid: string, user: string, elapsed: nat) returns (outcome: StartOutcome)
      modifies this, redis
      ensures redis.now == old(redis.now)
      ensures (View(), redis.entries) ==
              After(old(View()), old(redis.entries), redis.now, [Claim(n, sid, user)] + (if outcome.StartedHere? then [Register(n, sid)] else []))
      ensures if outcome.StartedHere?
        then sid in running && running[sid] == user && Key(user, sid) in redis.entries
          && redis.entries[Key(user, sid)] == redis.now + 15
        else View() == old(View()) && redis.entries == old(redis.entries)
      ensures var key := Key(user, sid);
        var refused := key in old(redis.entries) && redis.now < old(redis.entries)[key];
        && (outcome.StartedHere? <==> !refused)
        && (outcome.RunsLocally? <==> refused && sid in old(running))
        && (outcome.RunsElsewhere? <==> refused && sid !in old(running) && redis.now + elapsed < old(redis.entries)[key])
        && (outcome.NoEventStream? <==> refused && sid !in old(running) && redis.now + elapsed >= old(redis.entries)[key])
    {
      ghost var node, store := View(), redis.entries;
      var key := Key(user, sid);
      var created := redis.SetNx(key);
      if created {
        starting := starting[sid := user];
        assert (View(), redis.entries) == NodeStep(node, store, redis.now, Claim(n, sid, user));
        ghost var claimed := View();
        running := running[sid := starting[sid]];
        starting := starting - {sid};
        assert (View(), redis.entries) == NodeStep(claimed, redis.entries, redis.now, Register(n, sid));
        assert [Register(n, sid)][1..] == [];
        assert (View(), redis.entries) == After(claimed, redis.entries, redis.now, [Register(n, sid)]);
        assert ([Claim(n, sid, user)] + [Register(n, sid)])[1..] == [Register(n, sid)];
        return StartedHere;
      }
      assert [Claim(n, sid, user)] + [] == [Claim(n, sid, user)];
      if sid in running {
        return RunsLocally;
      }
      outcome := if Live(redis.entries, redis.now + elapsed, key) then RunsElsewhere else NoEventStream;
    }

    /** The first half of _update_state_in_redis: build the pipeline from the local loops. */
    method StageRefresh(n: int)
      modifies this`staged
      ensures (View(), redis.entries) == NodeStep(old(View()), redis.entries, redis.now, Stage(n))
      ensures forall key :: key in staged <==> key.sid in running && running[key.sid] == key.user && key.sid != ""
    {
      var pipe: set<Key> := {};
      var left := running.Keys;
      while left != {}
        invariant left <= running.Keys
        invariant pipe == set sid | sid in running.Keys - left && sid != "" :: Key(running[sid], sid)
        decreases left
      {
        var sid :| sid in left;
        if sid != "" {
          pipe := pipe + {Key(running[sid], sid)};
        }
        left := left - {sid};
      }
      staged := pipe;
      assert pipe == KeysOf(running);
    }

    /** The second half of _update_state_in_redis: execute the pipeline. */
    method ExecutePipeline(n: int)
      modifies this`staged, redis`entries
      ensures (View(), redis.entries) == NodeStep(old(View()), old(redis.entries), redis.now, Flush(n))
    {
      redis.entries := SetKeys(redis.entries, redis.now, staged);
      staged := {};
    }

    /** _disconnect_from_stopped: the conversations whose remote loop has died. */
    method DisconnectFromStopped(ghost c: Cluster, ghost n: int) returns (stopped: set<string>)
      requires c.At(n) == View() && c.store == redis.entries && c.now == redis.now
      ensures stopped == Stopped(c, n)
      ensures forall sid :: sid in stopped <==>
        && (exists connection :: connection in connections && connections[connection] == sid)
        && sid !in running
        && forall key :: key in redis.entries && key.sid == sid ==> redis.now >= redis.entries[key]
    {
      var connected: set<string> := set connection | connection in connections :: connections[connection];
      var remote := connected - running.Keys;
      if remote == {} {
        return {};
      }
      var alive: set<string> := {};
      var left := redis.Scan();
      ghost var scanned := left;
      while left != {}
        invariant left <= scanned
        invariant alive == set key | key in scanned - left :: key.sid
        decreases left
      {
        var key :| key in left;
        alive := alive + {key.sid};
        left := left - {key};
      }
      stopped := remote - alive;
    }

    /** _close_session up to the removal of the session from the local table. */
    method PopSession(n: int, sid: string) returns (found: bool)
      modifies this
      ensures found == (sid in old(running))
      ensures connections == old(connections) - (set connection | connection in old(connections) && old(connections)[connection] == sid)
      ensures View().(connections := old(connections)) == NodeStep(old(View()), redis.entries, redis.now, Pop(n, sid)).0
    {
      var gone := set connection | connection in connections && connections[connection] == sid;
      connections := connections - gone;
      found := sid in running;
      if found {
        closing := closing[sid := running[sid]];
        running := running - {sid};
      }
    }

    /** The rest of _close_session: delete the key of the popped session. */
    method DeleteKey(n: int, sid: string)
      requires sid in closing
      modifies this`closing, redis`entries
      ensures (View(), redis.entries) == NodeStep(old(View()), old(redis.entries), redis.now, Delete(n, sid))
    {
      redis.entries := redis.entries - {Key(closing[sid], sid)};
      closing := closing - {sid};
    }

    predicate Wanted(filter: Option<set<string>>, sid: string) {
      filter.None? || sid in filter.value
    }

    predicate OfUser(wanted: Option<string>, user: string) {
      wanted.None? || wanted.value == "" || wanted.value == user
    }

    /**
     get_running_agent_loops: the remote scan is skipped when every requested conversation was
     found locally, and skipping it loses nothing.
     */
    method GetRunningAgentLoops(user: Option<string>, filter: Option<set<string>>) returns (sids: set<string>)
      ensures forall sid :: sid in sids <==>
        && (filter.None? || sid in filter.value)
        && ( || (sid in running && (user.None? || user.value == "" || running[sid] == user.value))
             || (exists key :: key in redis.entries && redis.now < redis.entries[key]
                               && key.sid == sid && (user.None? || user.value == "" || key.user == user.value)))
    {
      sids := set sid | sid in running && Wanted(filter, sid) && OfUser(user, running[sid]);
      if filter.None? || filter.value == {} || |sids| != |filter.value| {
        var remote := set key | key in redis.Scan() && Wanted(filter, key.sid) && OfUser(user, key.user) :: key.sid;
        sids := sids + remote;
      } else {
        SameSizeSubset(sids, filter.value);
      }
    }
  }

  // ----- the same shortcut is wrong for connections -----

  /** get_connections: the remote scan is skipped when as many connections were found as conversations asked for. */
  function GetConnections(local: map<string, string>, remote: map<string, string>, filter: set<string>): map<string, string> {
    if filter == {} || |local| != |filter| then local + remote else local
  }

  /** Two connections to one of two conversations hide every remote connection to the other. */
  lemma ConnectionsShortcutLoses(a: string, b: string, first: string, second: string, third: string)
    requires a != b && first != second && third != first && third != second
    ensures var local, remote := map[first := a, second := a], map[third := b];
      && (forall connection :: connection in local ==> local[connection] in {a, b})
      && third !in GetConnections(local, remote, {a, b})
      && third in local + remote
  {
    var local := map[first := a, second := a];
    assert local.Keys == {first, second};
    assert |local| == |{a, b}| by {
      assert |local| == |local.Keys|;
    }
  }

  /** The shortcut is right exactly when every conversation asked for is either scanned or has no unseen remote connection. */
  lemma ConnectionsShortcutExactly(local: map<string, string>, remote: map<string, string>, filter: set<string>)
    ensures GetConnections(local, remote, filter) == local + remote <==>
      ( || filter == {}
        || |local| != |filter|
        || (forall connection :: connection in remote ==> connection in local && local[connection] == remote[connection]))
  {
    if GetConnections(local, remote, filter) == local + remote && filter != {} && |local| == |filter| {
      forall connection | connection in remote
        ensures connection in local && local[connection] == remote[connection]
      {
        assert connection in local + remote;
        assert (local + remote)[connection] == remote[connection];
      }
    } else if forall connection :: connection in remote ==> connection in local && local[connection] == remote[connection] {
      assert local + remote == local;
    }
  }
}

/**
 The lease protocol by which a cluster of servers shares conversations through Redis.

 A conversation key is claimed with SET NX EX 15, refreshed by the owner with an unconditional
 SET EX 15 in a pipeline that is built first and executed later, and deleted by the owner when
 it closes the session.  Every event below is one atomic exchange with Redis or one change of a
 node's own tables, so the steps of different nodes interleave freely.
 */
module ClusterLease {

  const REDIS_ENTRY_TIMEOUT_SECONDS := 15

  datatype Key = Key(user: string, sid: string)

  /** Conversation keys with the time at which each expires. */
  type Store = map<Key, int>

  predicate Live(store: Store, now: int, key: Key) {
    key in store && now < store[key]
  }

  /** Where a node keeps a conversation it has claimed. */
  datatype Role = Starting | Running | Closing

  /**
   One server: `running` is its table of agent loops (conversation to the user of its session),
   `starting` holds claims that are granted but not yet in that table, `closing` holds sessions
   popped from the table whose key is not yet deleted, `staged` is the refresh pipeline that is
   built but not yet executed, and `connections` maps its client connections to conversations.
   */
  datatype Node = Node(
    alive: bool,
    starting: map<string, string>,
    running: map<string, string>,
    closing: map<string, string>,
    staged: set<Key>,
    connections: map<string, string>)
  {
    function Table(role: Role): map<string, string> {
      match role
      case Starting => starting
      case Running => running
      case Closing => closing
    }
  }

  const DOWN := Node(false, map[], map[], map[], {}, map[])
  const FRESH := Node(true, map[], map[], map[], {}, map[])

  datatype Cluster = Cluster(now: int, store: Store, nodes: map<int, Node>) {
    function At(n: int): Node {
      if n in nodes then nodes[n] else DOWN
    }
  }

  datatype Event =
    | Claim(n: int, sid: string, user: string)
    | Register(n: int, sid: string)
    | Stage(n: int)
    | Flush(n: int)
    | Pop(n: int, sid: string)
    | Delete(n: int, sid: string)
    | Connect(n: int, connection: string, sid: string)
    | Disconnect(n: int, connection: string)
    | Crash(n: int)
    | Boot(n: int)
    | Tick

  // ----- what one node does to its own tables and to the store -----

  /** SET NX succeeds exactly when the key is absent or expired. */
  predicate Granted(store: Store, now: int, node: Node, sid: string, user: string) {
    node.alive && !Live(store, now, Key(user, sid))
  }

  function SetKeys(store: Store, now: int, keys: set<Key>): Store {
    map key | key in store.Keys + keys ::
      if key in keys then now + REDIS_ENTRY_TIMEOUT_SECONDS else store[key]
  }

  /** The keys a refresh covers: every loop of the node whose conversation id is not empty. */
  function KeysOf(loops: map<string, string>): set<Key> {
    set sid | sid in loops && sid != "" :: Key(loops[sid], sid)
  }

  function NodeStep(node: Node, store: Store, now: int, e: Event): (Node, Store) {
    if e.Boot? then (if node.alive then (node, store) else (FRESH, store))
    else if !node.alive then (node, store)
    else match e
      case Claim(_, sid, user) =>
        if Granted(store, now, node, sid, user)
        then (node.(starting := node.starting[sid := user]), SetKeys(store, now, {Key(user, sid)}))
        else (node, store)
      case Register(_, sid) =>
        if sid in node.starting
        then (node.(starting := node.starting - {sid},
                    running := node.running[sid := node.starting[sid]]), store)
        else (node, store)
      case Stage(_) => (node.(staged := KeysOf(node.running)), store)
      case Flush(_) => (node.(staged := {}), SetKeys(store, now, node.staged))
      case Pop(_, sid) =>
        if sid in node.running
        then (node.(running := node.running - {sid},
                    closing := node.closing[sid := node.running[sid]]), store)
        else (node, store)
      case Delete(_, sid) =>
        if sid in node.closing
        then (node.(closing := node.closing - {sid}), store - {Key(node.closing[sid], sid)})
        else (node, store)
      case Connect(_, connection, sid) =>
        (node.(connections := node.connections[connection := sid]), store)
      case Disconnect(_, connection) =>
        (node.(connections := node.connections - {connection}), store)
      case Crash(_) => (DOWN, store)
      case Boot(_) => (node, store)
      case Tick => (node, store)
  }

  function Step(c: Cluster, e: Event): Cluster {
    if e.Tick? then c.(now := c.now + 1)
    else
      var (node, store) := NodeStep(c.At(e.n), c.store, c.now, e);
      c.(nodes := c.nodes[e.n := node], store := store)
  }

  function Run(c: Cluster, events: seq<Event>): Cluster
    decreases |events|
  {
    if events == [] then c else Run(Step(c, events[0]), events[1..])
  }

  /**
   How a node comes and goes: it boots with empty tables, a crash takes all of them and leaves the
   store alone, and clients connect and disconnect one at a time.
   */
  lemma ComesAndGoes(c: Cluster, n: int, connection: string, sid: string)
    ensures !c.At(n).alive ==> Step(c, Boot(n)).At(n) == Node(true, map[], map[], map[], {}, map[])
    ensures c.At(n).alive ==> Step(c, Boot(n)).At(n) == c.At(n)
    ensures c.At(n).alive ==> !Step(c, Crash(n)).At(n).alive && Step(c, Crash(n)).At(n).running == map[]
    ensures Step(c, Boot(n)).store == c.store && Step(c, Crash(n)).store == c.store
    ensures var node := c.At(n);
      node.alive ==>
        && Step(c, Connect(n, connection, sid)).At(n) == node.(connections := node.connections[connection := sid])
        && connection !in Step(c, Disconnect(n, connection)).At(n).connections
        && forall other :: other != connection ==>
             (other in Step(c, Disconnect(n, connection)).At(n).connections <==> other in node.connections)
  {
  }

  // ----- what a run must respect and what it keeps -----

  ghost predicate Holds(c: Cluster, n: int, role: Role, key: Key) {
    && c.At(n).alive
    && key.sid in c.At(n).Table(role)
    && c.At(n).Table(role)[key.sid] == key.user
  }

  /** No key is held twice, by two nodes or by one node in two roles. */
  ghost predicate Exclusive(c: Cluster) {
    forall n, role, n', role', key ::
      Holds(c, n, role, key) && Holds(c, n', role', key) ==> n == n' && role == role'
  }

  /** Whatever a live node holds is live in Redis. */
  ghost predicate HeldIsLive(c: Cluster) {
    forall n, role, key :: Holds(c, n, role, key) ==> Live(c.store, c.now, key)
  }

  ghost predicate TtlBounded(c: Cluster) {
    forall key :: key in c.store ==> c.store[key] <= c.now + REDIS_ENTRY_TIMEOUT_SECONDS
  }

  /** Every key that is held, staged or stored names the user that owns its conversation. */
  ghost predicate OwnedBy(c: Cluster, owner: string -> string) {
    && (forall n, role, key :: Holds(c, n, role, key) ==> key.user == owner(key.sid))
    && (forall n, key :: key in c.At(n).staged ==> key.user == owner(key.sid))
    && (forall key :: key in c.store ==> key.user == owner(key.sid))
  }

  ghost predicate Inv(c: Cluster, owner: string -> string) {
    Exclusive(c) && HeldIsLive(c) && TtlBounded(c) && OwnedBy(c, owner)
  }

  ghost predicate Initial(c: Cluster) {
    c.store == map[] && forall n :: n in c.nodes ==> c.nodes[n] == FRESH || c.nodes[n] == DOWN
  }

  // ----- what the steps keep -----

  /** What a step can do to the set of holders: only a granted claim adds one. */
  lemma HoldersAfter(c: Cluster, e: Event, n: int, role: Role, key: Key)
    requires Holds(Step(c, e), n, role, key)
    ensures
      || Holds(c, n, role, key)
      || (e == Claim(n, key.sid, key.user) && role == Starting && Granted(c.store, c.now, c.At(n), key.sid, key.user))
      || (e == Register(n, key.sid) && role == Running && Holds(c, n, Starting, key))
      || (e == Pop(n, key.sid) && role == Closing && Holds(c, n, Running, key))
  {
  }

  lemma StepKeepsExclusive(c: Cluster, e: Event)
    requires Exclusive(c) && HeldIsLive(c)
    ensures Exclusive(Step(c, e))
  {
    forall n, role, n', role', key | Holds(Step(c, e), n, role, key) && Holds(Step(c, e), n', role', key)
      ensures n == n' && role == role'
    {
      HoldersAfter(c, e, n, role, key);
      HoldersAfter(c, e, n', role', key);
    }
  }

  /** Nothing but its own holder's delete removes a held key, and a step other than the clock never shortens it. */
  lemma HeldKeyStays(c: Cluster, e: Event, n: int, role: Role, key: Key)
    requires Exclusive(c) && HeldIsLive(c) && TtlBounded(c) && Holds(c, n, role, key) && !e.Tick?
    requires !(e == Delete(n, key.sid) && role == Closing)
    ensures Live(Step(c, e).store, c.now, key)
  {
    assert Live(c.store, c.now, key);
    if e.Delete? && c.At(e.n).alive && e.sid in c.At(e.n).closing {
      var deleted := Key(c.At(e.n).closing[e.sid], e.sid);
      assert Holds(c, e.n, Closing, deleted);
      assert deleted != key;
    }
  }

  /** Times to live and owners are kept whatever the timing. */
  lemma StepKeepsTidy(c: Cluster, e: Event, owner: string -> string)
    requires TtlBounded(c) && OwnedBy(c, owner) && (e.Claim? ==> e.user == owner(e.sid))
    ensures TtlBounded(Step(c, e)) && OwnedBy(Step(c, e), owner)
  {
    var c' := Step(c, e);
    forall n, role, key | Holds(c', n, role, key) ensures key.user == owner(key.sid) {
      HoldersAfter(c, e, n, role, key);
    }
    forall n, key | key in c'.At(n).staged ensures key.user == owner(key.sid) {
      if key !in c.At(n).staged {
        assert Holds(c, n, Running, key);
      }
    }
  }

  /** Every step keeps the invariant; of the clock this is required. */
  lemma StepKeepsInv(c: Cluster, e: Event, owner: string -> string)
    requires Inv(c, owner) && (e.Claim? ==> e.user == owner(e.sid)) && (e.Tick? ==> HeldIsLive(Step(c, e)))
    ensures Inv(Step(c, e), owner)
  {
    var c' := Step(c, e);
    StepKeepsExclusive(c, e);
    StepKeepsTidy(c, e, owner);
    forall n, role, key | Holds(c', n, role, key) && !e.Tick? ensures Live(c'.store, c'.now, key) {
      HoldersAfter(c, e, n, role, key);
      if Holds(c, n, role, key) {
        assert e == Delete(n, key.sid) ==> role != Closing;
        HeldKeyStays(c, e, n, role, key);
      } else if e.Register? {
        HeldKeyStays(c, e, n, Starting, key);
      } else if e.Pop? {
        HeldKeyStays(c, e, n, Running, key);
      }
    }
  }

  /** Claims name the user who owns the conversation, which has an id. */
  predicate NamesOwner(e: Event, owner: string -> string) {
    e.Claim? ==> e.user == owner(e.sid) && e.sid != ""
  }

  predicate NameOwners(events: seq<Event>, owner: string -> string) {
    forall i :: 0 <= i < |events| ==> NamesOwner(events[i], owner)
  }

  lemma {:induction false} RunKeepsTidy(c: Cluster, events: seq<Event>, owner: string -> string)
    requires TtlBounded(c) && OwnedBy(c, owner) && NameOwners(events, owner)
    ensures TtlBounded(Run(c, events)) && OwnedBy(Run(c, events), owner)
    decreases |events|
  {
    if events != [] {
      assert NamesOwner(events[0], owner);
      StepKeepsTidy(c, events[0], owner);
      assert forall i :: 0 <= i < |events[1..]| ==> events[1..][i] == events[i + 1];
      RunKeepsTidy(Step(c, events[0]), events[1..], owner);
    }
  }

  ghost predicate StagedAt(c: Cluster, events: seq<Event>, i: nat, n: int, key: Key)
    requires i < |events|
  {
    events[i] == Stage(n) && Holds(Run(c, events[..i]), n, Running, key)
  }

  /** A pipeline carries only keys of conversations that its node had in its table when it built it, though it may have lost them since. */
  lemma {:induction false} StagedWasHeld(c: Cluster, events: seq<Event>, n: int, key: Key)
    requires key in Run(c, events).At(n).staged && key !in c.At(n).staged
    ensures exists i: nat :: i < |events| && StagedAt(c, events, i, n, key)
    decreases |events|
  {
    var c' := Step(c, events[0]);
    if key in c'.At(n).staged {
      assert events[..0] == [] && Holds(c, n, Running, key);
      assert StagedAt(c, events, 0, n, key);
    } else {
      StagedWasHeld(c', events[1..], n, key);
      var i: nat :| i < |events[1..]| && StagedAt(c', events[1..], i, n, key);
      assert events[..i + 1][0] == events[0] && events[..i + 1][1..] == events[1..][..i];
      assert StagedAt(c, events, i + 1, n, key);
    }
  }

  // ----- exactly when a conversation gets a second holder -----

  ghost predicate HoldsSid(c: Cluster, n: int, role: Role, sid: string) {
    c.At(n).alive && sid in c.At(n).Table(role)
  }

  ghost predicate OneHolder(c: Cluster, sid: string) {
    forall n, role, n', role' ::
      HoldsSid(c, n, role, sid) && HoldsSid(c, n', role', sid) ==> n == n' && role == role'
  }

  /**
   With no assumption on timing or users: a claim made while another node holds the conversation
   keeps it single if and only if the claimed key is still live at that moment.
   */
  lemma SecondHolderExactly(c: Cluster, n: int, sid: string, user: string, holder: int, role: Role)
    requires c.At(n).alive && n != holder && HoldsSid(c, holder, role, sid) && OneHolder(c, sid)
    ensures OneHolder(Step(c, Claim(n, sid, user)), sid) <==> Live(c.store, c.now, Key(user, sid))
  {
    var c' := Step(c, Claim(n, sid, user));
    assert HoldsSid(c', holder, role, sid);
    if Live(c.store, c.now, Key(user, sid)) {
      forall m, r | HoldsSid(c', m, r, sid) ensures HoldsSid(c, m, r, sid) {
      }
    } else {
      assert HoldsSid(c', n, Starting, sid);
    }
  }
}

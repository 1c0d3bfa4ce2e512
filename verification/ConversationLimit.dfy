/**
 Making room for a conversation: when a user has as many running conversations as allowed, the ones
 not updated for longest are closed.
 */
module ConversationLimit {
  import opened Wrappers

  datatype Conversation = Conversation(id: string, lastUpdatedAt: Option<real>)

  /** _last_updated_at_key. */
  function KeyOf(c: Conversation): real {
    if c.lastUpdatedAt.Some? then c.lastUpdatedAt.value else 0.0
  }

  // ----- sorting by last update, newest first -----

  /** Behind everything that is at least as new. */
  function Insert(s: seq<Conversation>, c: Conversation): seq<Conversation>
    decreases |s|
  {
    if s == [] || KeyOf(s[|s| - 1]) >= KeyOf(c) then s + [c] else Insert(s[..|s| - 1], c) + [s[|s| - 1]]
  }

  /** A stable sort, which keeps conversations updated at the same time in the order they came. */
  function Sorted(s: seq<Conversation>): seq<Conversation>
    decreases |s|
  {
    if s == [] then [] else Insert(Sorted(s[..|s| - 1]), s[|s| - 1])
  }

  /** a was not updated after b; a conversation without a date counts as updated at time 0. */
  predicate NotNewer(a: Conversation, b: Conversation) {
    match (a.lastUpdatedAt, b.lastUpdatedAt)
    case (Some(x), Some(y)) => x <= y
    case (None, Some(y)) => 0.0 <= y
    case (Some(x), None) => x <= 0.0
    case (None, None) => true
  }

  predicate NewestFirst(s: seq<Conversation>) {
    forall i, j :: 0 <= i < j < |s| ==> NotNewer(s[j], s[i])
  }

  /** The conversations updated at a given time, in order. */
  function At(s: seq<Conversation>, key: real): seq<Conversation>
    decreases |s|
  {
    if s == [] then []
    else if KeyOf(s[|s| - 1]) == key then At(s[..|s| - 1], key) + [s[|s| - 1]] else At(s[..|s| - 1], key)
  }

  lemma AtSnoc(s: seq<Conversation>, c: Conversation, key: real)
    ensures At(s + [c], key) == if KeyOf(c) == key then At(s, key) + [c] else At(s, key)
  {
    assert (s + [c])[..|s|] == s;
  }

  lemma {:induction false} InsertBound(s: seq<Conversation>, c: Conversation, bound: real)
    requires KeyOf(c) >= bound && forall i :: 0 <= i < |s| ==> KeyOf(s[i]) >= bound
    ensures forall i :: 0 <= i < |Insert(s, c)| ==> KeyOf(Insert(s, c)[i]) >= bound
    decreases |s|
  {
    if s != [] && KeyOf(s[|s| - 1]) < KeyOf(c) {
      InsertBound(s[..|s| - 1], c, bound);
    }
  }

  lemma {:induction false} InsertSorts(s: seq<Conversation>, c: Conversation)
    requires NewestFirst(s)
    ensures NewestFirst(Insert(s, c)) && |Insert(s, c)| == |s| + 1
    decreases |s|
  {
    if s != [] && KeyOf(s[|s| - 1]) < KeyOf(c) {
      InsertSorts(s[..|s| - 1], c);
      InsertBound(s[..|s| - 1], c, KeyOf(s[|s| - 1]));
    }
  }

  lemma {:induction false} InsertPermutes(s: seq<Conversation>, c: Conversation)
    ensures multiset(Insert(s, c)) == multiset(s) + multiset{c}
    decreases |s|
  {
    if s != [] && KeyOf(s[|s| - 1]) < KeyOf(c) {
      assert s == s[..|s| - 1] + [s[|s| - 1]];
      InsertPermutes(s[..|s| - 1], c);
    }
  }

  /** Where conversations were updated at the same time, the inserted one comes last. */
  lemma {:induction false} InsertIsStable(s: seq<Conversation>, c: Conversation, key: real)
    ensures At(Insert(s, c), key) == At(s + [c], key)
    decreases |s|
  {
    if s != [] && KeyOf(s[|s| - 1]) < KeyOf(c) {
      var front, last := s[..|s| - 1], s[|s| - 1];
      InsertIsStable(front, c, key);
      AtSnoc(Insert(front, c), last, key);
      AtSnoc(front, c, key);
      AtSnoc(s, c, key);
    }
  }

  /** The newest come first. */
  lemma {:induction false} SortedInOrder(s: seq<Conversation>)
    ensures NewestFirst(Sorted(s)) && |Sorted(s)| == |s|
    decreases |s|
  {
    if s != [] {
      SortedInOrder(s[..|s| - 1]);
      InsertSorts(Sorted(s[..|s| - 1]), s[|s| - 1]);
    }
  }

  /** Sorting neither adds nor loses a conversation. */
  lemma {:induction false} SortedPermutes(s: seq<Conversation>)
    ensures multiset(Sorted(s)) == multiset(s)
    decreases |s|
  {
    if s != [] {
      SortedPermutes(s[..|s| - 1]);
      InsertPermutes(Sorted(s[..|s| - 1]), s[|s| - 1]);
      assert s == s[..|s| - 1] + [s[|s| - 1]];
    }
  }

  /** Conversations updated at the same time stay in the order they came. */
  lemma {:induction false} SortedIsStable(s: seq<Conversation>, key: real)
    ensures At(Sorted(s), key) == At(s, key)
    decreases |s|
  {
    if s != [] {
      var front, last := s[..|s| - 1], s[|s| - 1];
      SortedIsStable(front, key);
      InsertIsStable(Sorted(front), last, key);
      AtSnoc(Sorted(front), last, key);
    }
  }

  // ----- closing the oldest -----

  datatype Eviction = Eviction(closed: seq<Conversation>, kept: seq<Conversation>, raised: bool)

  /** Popping the last of the sorted list until fewer than `limit` are left; an empty list cannot be popped. */
  function Evict(sorted: seq<Conversation>, limit: int): Eviction
    decreases |sorted|
  {
    if |sorted| < limit then Eviction([], sorted, false)
    else if sorted == [] then Eviction([], [], true)
    else
      var rest := Evict(sorted[..|sorted| - 1], limit);
      Eviction([sorted[|sorted| - 1]] + rest.closed, rest.kept, rest.raised)
  }

  lemma {:induction false} EvictSplits(sorted: seq<Conversation>, limit: int)
    ensures var e := Evict(sorted, limit);
      && e.raised == (limit <= 0)
      && e.kept <= sorted
      && |e.kept| == (if limit <= 0 then 0 else if |sorted| < limit then |sorted| else limit - 1)
      && |e.closed| == |sorted| - |e.kept|
      && (forall i :: 0 <= i < |e.closed| ==> e.closed[i] == sorted[|sorted| - 1 - i])
    decreases |sorted|
  {
    if |sorted| >= limit && sorted != [] {
      EvictSplits(sorted[..|sorted| - 1], limit);
    }
  }

  lemma {:induction false} EvictPermutes(sorted: seq<Conversation>, limit: int)
    ensures multiset(Evict(sorted, limit).kept) + multiset(Evict(sorted, limit).closed) == multiset(sorted)
    decreases |sorted|
  {
    if |sorted| >= limit && sorted != [] {
      EvictPermutes(sorted[..|sorted| - 1], limit);
      assert sorted == sorted[..|sorted| - 1] + [sorted[|sorted| - 1]];
    }
  }

  /**
   With a positive limit, the conversations kept are fewer than the limit, as many as possible, and
   none of them is older than one that is closed; without one, all are closed and an error is raised.
   */
  lemma ClosesTheOldest(conversations: seq<Conversation>, limit: int)
    ensures var e := Evict(Sorted(conversations), limit);
      && multiset(e.kept) + multiset(e.closed) == multiset(conversations)
      && (forall i, j :: 0 <= i < |e.closed| && 0 <= j < |e.kept| ==> NotNewer(e.closed[i], e.kept[j]))
      && (forall i, j :: 0 <= i < j < |e.closed| ==> NotNewer(e.closed[i], e.closed[j]))
      && (limit <= 0 ==> e.raised && e.kept == [])
      && (limit > 0 ==> !e.raised && |e.kept| == if |conversations| < limit then |conversations| else limit - 1)
  {
    var sorted := Sorted(conversations);
    SortedInOrder(conversations);
    SortedPermutes(conversations);
    EvictSplits(sorted, limit);
    EvictPermutes(sorted, limit);
  }

  // ----- what keeps running -----

  function Ids(s: seq<Conversation>): set<string> {
    set i | 0 <= i < |s| :: s[i].id
  }

  predicate DistinctIds(s: seq<Conversation>) {
    forall i, j :: 0 <= i < j < |s| ==> s[i].id != s[j].id
  }

  /** The runtime of a closed conversation stops unless the pause request fails, which is only logged. */
  function StillRunning(running: set<string>, closed: seq<Conversation>, failing: set<string>): set<string> {
    running - (Ids(closed) - failing)
  }

  lemma {:induction false} IdsCount(s: seq<Conversation>)
    requires DistinctIds(s)
    ensures |Ids(s)| == |s|
    decreases |s|
  {
    if s != [] {
      var front := s[..|s| - 1];
      IdsCount(front);
      assert Ids(s) == Ids(front) + {s[|s| - 1].id};
    }
  }

  /** The ids kept and the ids closed make up all ids, and have none in common. */
  lemma IdsSplit(sorted: seq<Conversation>, limit: int)
    requires DistinctIds(sorted)
    ensures Ids(Evict(sorted, limit).kept) + Ids(Evict(sorted, limit).closed) == Ids(sorted)
    ensures Ids(Evict(sorted, limit).kept) !! Ids(Evict(sorted, limit).closed)
  {
    var e := Evict(sorted, limit);
    EvictSplits(sorted, limit);
    forall k | 0 <= k < |sorted| ensures sorted[k].id in Ids(e.kept) + Ids(e.closed) {
      if k < |e.kept| {
        assert e.kept[k] == sorted[k];
      } else {
        assert e.closed[|sorted| - 1 - k] == sorted[k];
      }
    }
    forall k, l | 0 <= k < |e.kept| && 0 <= l < |e.closed|
      ensures e.kept[k].id in Ids(sorted) && e.closed[l].id in Ids(sorted) && e.kept[k].id != e.closed[l].id
    {
      assert e.kept[k] == sorted[k] && e.closed[l] == sorted[|sorted| - 1 - l];
    }
    if |e.kept| == 0 {
      assert forall l :: 0 <= l < |e.closed| ==> e.closed[l] == sorted[|sorted| - 1 - l];
    }
    if |e.closed| == 0 {
      assert e.kept == sorted;
    }
  }

  lemma CountRemaining(all: set<string>, kept: set<string>, closed: set<string>, failing: set<string>)
    requires kept + closed == all && kept !! closed
    ensures |all - (closed - failing)| == |kept| + |closed * failing|
  {
    assert all - (closed - failing) == kept + closed * failing;
    assert kept !! closed * failing;
  }

  /** Afterwards fewer conversations run than allowed, exactly when no pause request failed. */
  lemma BelowLimitExactly(sorted: seq<Conversation>, limit: int, failing: set<string>)
    requires DistinctIds(sorted) && limit > 0
    ensures |StillRunning(Ids(sorted), Evict(sorted, limit).closed, failing)| < limit
            <==> Ids(Evict(sorted, limit).closed) * failing == {}
  {
    var e := Evict(sorted, limit);
    EvictSplits(sorted, limit);
    IdsSplit(sorted, limit);
    IdsCount(e.kept);
    CountRemaining(Ids(sorted), Ids(e.kept), Ids(e.closed), failing);
    var failed := Ids(e.closed) * failing;
    assert failed == {} <==> |failed| == 0;
    if e.closed == [] {
      assert Ids(e.closed) == {};
    }
  }

  // ----- the method -----

  lemma EvictPops(sorted: seq<Conversation>, limit: int, closed: seq<Conversation>)
    requires |sorted| >= limit && sorted != []
    ensures var e, rest := Evict(sorted, limit), Evict(sorted[..|sorted| - 1], limit);
      e.raised == rest.raised && e.kept == rest.kept && closed + e.closed == closed + [sorted[|sorted| - 1]] + rest.closed
  {
  }

  /** conversations.sort(key=_last_updated_at_key, reverse=True). */
  method SortByLastUpdate(listed: seq<Conversation>) returns (sorted: seq<Conversation>)
    ensures sorted == Sorted(listed)
  {
    sorted := [];
    for i := 0 to |listed|
      invariant sorted == Sorted(listed[..i])
    {
      assert listed[..i + 1][..i] == listed[..i];
      sorted := Insert(sorted, listed[i]);
    }
    assert listed[..|listed|] == listed;
  }

  /** ensure_num_conversations_below_limit, for the metadata of the user's running conversations. */
  method EnsureNumConversationsBelowLimit(listed: seq<Conversation>, limit: int)
    returns (closed: seq<Conversation>, kept: seq<Conversation>, raised: bool)
    ensures |listed| >= limit ==> Eviction(closed, kept, raised) == Evict(Sorted(listed), limit)
    ensures |listed| < limit ==> closed == [] && kept == listed && !raised
  {
    closed, kept, raised := [], listed, false;
    if |listed| < limit {
      return;
    }
    var conversations := SortByLastUpdate(listed);
    while |conversations| >= limit
      invariant var rest := Evict(conversations, limit);
        Evict(Sorted(listed), limit) == Eviction(closed + rest.closed, rest.kept, rest.raised)
      decreases |conversations|
    {
      if |conversations| == 0 {
        return closed, [], true;
      }
      EvictPops(conversations, limit, closed);
      closed := closed + [conversations[|conversations| - 1]];
      conversations := conversations[..|conversations| - 1];
    }
    kept := conversations;
  }
}

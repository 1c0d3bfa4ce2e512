/**
 The job that installs GitLab webhooks: each run takes the pending rows that were synced longest ago,
 at most CHUNK_SIZE of them, and stamps every row it has processed with the current time.

 Every statement gets a later timestamp than the one before; the rows of one INSERT share theirs.  Rows
 may be inserted and reset between any two steps.
 */
module GitlabWebhooks {
  import opened Wrappers

  const CHUNK_SIZE: nat := 100

  /** A row is pending while its webhook does not exist; it is well formed if it names exactly one resource. */
  datatype Row = Row(pending: bool, synced: nat, wellFormed: bool)
  datatype Store = Store(rows: map<int, Row>, clock: nat)

  /** What processing a row comes to; a crash is any exception but the one that skips the row. */
  datatype Outcome = Installed | Present | Gone | Skipped | Crashed

  datatype Arrival = Insert(rows: map<int, Row>) | Reset(w: int)

  /** What happens on a row's turn: others write first, then the row is processed. */
  datatype Turn = Turn(before: seq<Arrival>, outcome: Outcome)

  /** Timestamps lie in the past. */
  predicate Valid(s: Store) {
    forall w :: w in s.rows ==> s.rows[w].synced < s.clock
  }

  // ----- the steps -----

  function Stamp(s: Store, w: int, row: Row): Store {
    Store(s.rows[w := row.(synced := s.clock)], s.clock + 1)
  }

  function Arrive(s: Store, a: Arrival): Store {
    match a
    case Insert(rows) =>
      // Rows that exist are left alone.
      Store(s.rows + (map w | w in rows && w !in s.rows :: rows[w].(synced := s.clock)), s.clock + 1)
    case Reset(w) => if w in s.rows then Stamp(s, w, s.rows[w].(pending := true)) else s
  }

  function ArriveAll(s: Store, arrivals: seq<Arrival>): Store
    decreases |arrivals|
  {
    if arrivals == [] then s else ArriveAll(Arrive(s, arrivals[0]), arrivals[1..])
  }

  /** Processing a well-formed row, with the update of last_synced that always follows. */
  function Process(s: Store, w: int, outcome: Outcome): Store {
    if w !in s.rows then s
    else match outcome
      case Installed => Stamp(s, w, s.rows[w].(pending := false))
      case Present => Stamp(s, w, s.rows[w].(pending := false))
      case Gone => s.(rows := s.rows - {w})
      case Skipped => Stamp(s, w, s.rows[w])
      case Crashed => Stamp(s, w, s.rows[w])
  }

  /**
   The loop from row `i` on: the store it leaves and how many rows of the batch were processed.  A row
   that is not well formed ends the run, and last_synced cannot be updated for it either.
   */
  function RunRows(s: Store, batch: seq<int>, turns: seq<Turn>, i: nat): (r: (Store, nat))
    requires i <= |batch| <= |turns|
    ensures i <= r.1 <= |batch|
    decreases |batch| - i
  {
    if i == |batch| then (s, i)
    else
      var s1 := ArriveAll(s, turns[i].before);
      if batch[i] in s1.rows && !s1.rows[batch[i]].wellFormed then (s1, i)
      else
        var s2 := Process(s1, batch[i], turns[i].outcome);
        if turns[i].outcome.Crashed? then (s2, i + 1) else RunRows(s2, batch, turns, i + 1)
  }

  function Pending(s: Store): set<int> {
    set w | w in s.rows && s.rows[w].pending
  }

  /** What filter_rows returns: the pending rows synced longest ago, in that order; ties may come either way. */
  predicate IsBatch(s: Store, batch: seq<int>) {
    && (forall i :: 0 <= i < |batch| ==> batch[i] in Pending(s))
    && (forall i, j :: 0 <= i < j < |batch| ==> batch[i] != batch[j])
    && (forall i, j :: 0 <= i < j < |batch| ==> s.rows[batch[i]].synced <= s.rows[batch[j]].synced)
    && (forall i, w :: 0 <= i < |batch| && w in Pending(s) && w !in batch ==> s.rows[batch[i]].synced <= s.rows[w].synced)
    && |batch| == if |Pending(s)| < CHUNK_SIZE then |Pending(s)| else CHUNK_SIZE
  }

  // ----- one run -----

  /** The pending rows that may come before w. */
  function Older(s: Store, w: int): set<int>
    requires w in s.rows
  {
    set v | v in Pending(s) && v != w && s.rows[v].synced <= s.rows[w].synced
  }

  /** w itself, and the pending rows that must come before it. */
  predicate Ahead(s: Store, x: int, w: int)
    requires w in s.rows
  {
    x == w || (x in Pending(s) && s.rows[x].synced < s.rows[w].synced)
  }

  predicate Waits(s: Store, w: int) {
    w in s.rows && s.rows[w].pending
  }

  predicate Leaves(arrivals: seq<Arrival>, w: int) {
    Reset(w) !in arrivals
  }

  predicate TurnsLeave(turns: seq<Turn>, w: int) {
    forall i :: 0 <= i < |turns| ==> Leaves(turns[i].before, w)
  }

  /** Newcomers and resets line up behind: they never get in front of w. */
  lemma {:induction false} ArrivalsLineUp(s: Store, w: int, arrivals: seq<Arrival>)
    requires Valid(s) && w in s.rows && Leaves(arrivals, w)
    ensures var s' := ArriveAll(s, arrivals);
      && Valid(s') && w in s'.rows && s'.rows[w] == s.rows[w] && Older(s', w) <= Older(s, w)
      && forall v :: v in s.rows ==> v in s'.rows && s'.rows[v].wellFormed == s.rows[v].wellFormed
    decreases |arrivals|
  {
    if arrivals != [] {
      assert arrivals[0] in arrivals;
      var s1 := Arrive(s, arrivals[0]);
      assert Valid(s1) && s1.rows[w] == s.rows[w] && Older(s1, w) <= Older(s, w);
      ArrivalsLineUp(s1, w, arrivals[1..]);
    }
  }

  /**
   What others do to the queue.  An insert adds the rows that are not there yet, a reset makes a row
   pending again; either way these rows come last, and no other row changes.
   */
  lemma ArrivesExactly(s: Store, a: Arrival)
    requires Valid(s)
    ensures var s' := Arrive(s, a);
      && Valid(s')
      && (forall v :: v in s'.rows <==> v in s.rows || (a.Insert? && v in a.rows))
      && (forall v :: v in s.rows && a != Reset(v) ==> s'.rows[v] == s.rows[v])
      && (forall v :: v in s'.rows && v !in s.rows ==>
            s'.rows[v].pending == a.rows[v].pending && s'.rows[v].wellFormed == a.rows[v].wellFormed
            && forall x :: x in s.rows ==> s.rows[x].synced < s'.rows[v].synced)
      && (a.Reset? && a.w in s.rows ==>
            s'.rows[a.w].pending && s'.rows[a.w].wellFormed == s.rows[a.w].wellFormed
            && forall x :: x in s.rows ==> s.rows[x].synced < s'.rows[a.w].synced)
  {
  }

  /** A processed row is no longer in front of w. */
  lemma ProcessedGoesBehind(s: Store, w: int, v: int, outcome: Outcome)
    requires Valid(s) && w in s.rows && v != w
    ensures var s' := Process(s, v, outcome);
      && Valid(s') && w in s'.rows && s'.rows[w] == s.rows[w] && Older(s', w) <= Older(s, w) - {v}
      && forall x :: x in s.rows && x != v ==> x in s'.rows && s'.rows[x].wellFormed == s.rows[x].wellFormed
  {
  }

  /**
   What processing achieves.  A pending row stays pending exactly if it was skipped or the processing
   crashed, and disappears exactly if its resource is gone; if it stays it goes to the end of the
   queue; no other row changes.
   */
  lemma ProcessedExactly(s: Store, w: int, outcome: Outcome)
    requires Valid(s) && w in s.rows && s.rows[w].pending
    ensures var s' := Process(s, w, outcome);
      && (w in s'.rows && s'.rows[w].pending <==> outcome == Skipped || outcome == Crashed)
      && (w !in s'.rows <==> outcome == Gone)
      && (w in s'.rows ==> forall v :: v in s.rows ==> s'.rows[w].synced > s.rows[v].synced)
      && (w in s'.rows ==> s'.rows[w].wellFormed == s.rows[w].wellFormed)
      && (forall v :: v != w ==> (v in s'.rows <==> v in s.rows) && (v in s.rows ==> s'.rows[v] == s.rows[v]))
  {
  }

  function Elements(batch: seq<int>, i: nat, j: nat): set<int>
    requires i <= j <= |batch|
  {
    set k | i <= k < j :: batch[k]
  }

  /** The rows a run has processed are out of the way of those it has not. */
  lemma {:induction false} RunClears(s: Store, w: int, batch: seq<int>, turns: seq<Turn>, i: nat)
    requires Valid(s) && w in s.rows && i <= |batch| <= |turns| && TurnsLeave(turns, w)
    requires var p := RunRows(s, batch, turns, i).1; w !in Elements(batch, i, p)
    ensures var (s', p) := RunRows(s, batch, turns, i);
      && Valid(s') && w in s'.rows && s'.rows[w] == s.rows[w] && Older(s', w) <= Older(s, w) - Elements(batch, i, p)
      && forall v :: v in Older(s', w) ==> s'.rows[v].wellFormed == s.rows[v].wellFormed
    decreases |batch| - i
  {
    var p := RunRows(s, batch, turns, i).1;
    if i < |batch| {
      ArrivalsLineUp(s, w, turns[i].before);
      var s1 := ArriveAll(s, turns[i].before);
      if !(batch[i] in s1.rows && !s1.rows[batch[i]].wellFormed) {
        assert batch[i] in Elements(batch, i, p);
        ProcessedGoesBehind(s1, w, batch[i], turns[i].outcome);
        var s2 := Process(s1, batch[i], turns[i].outcome);
        if !turns[i].outcome.Crashed? {
          assert Elements(batch, i, p) == {batch[i]} + Elements(batch, i + 1, p);
          RunClears(s2, w, batch, turns, i + 1);
        } else {
          assert Elements(batch, i, p) == {batch[i]};
        }
      }
    }
  }

  lemma {:induction false} DistinctElements(s: Store, batch: seq<int>, p: nat)
    requires IsBatch(s, batch) && p <= |batch|
    ensures |Elements(batch, 0, p)| == p
  {
    if p > 0 {
      DistinctElements(s, batch, p - 1);
      assert Elements(batch, 0, p) == Elements(batch, 0, p - 1) + {batch[p - 1]};
      assert batch[p - 1] !in Elements(batch, 0, p - 1);
    }
  }

  /** The part of a batch without w lies in front of w. */
  lemma BatchInFront(s: Store, batch: seq<int>, w: int, p: nat)
    requires Valid(s) && Waits(s, w) && IsBatch(s, batch) && p <= |batch| && w !in Elements(batch, 0, p)
    ensures Elements(batch, 0, p) <= Older(s, w)
    ensures p < |batch| ==> batch[p] in Older(s, w) + {w}
  {
    assert forall j :: 0 <= j < p ==> batch[j] in Elements(batch, 0, p);
    forall k | 0 <= k <= p && k < |batch| ensures batch[k] in Older(s, w) + {w} {
      if w in batch {
        var j :| 0 <= j < |batch| && batch[j] == w;
        assert p <= j;
      }
    }
    forall v | v in Elements(batch, 0, p) ensures v in Older(s, w) {
    }
  }

  lemma {:induction false} SubsetSize<T>(a: set<T>, b: set<T>)
    requires a <= b
    ensures |a| <= |b|
    decreases a
  {
    if a != {} {
      var x :| x in a;
      SubsetSize(a - {x}, b - {x});
    }
  }

  /**
   A run either processes a waiting row or takes as many rows out of its way as it processes, however
   it ends and whatever arrives meanwhile.
   */
  lemma RunProgress(s: Store, batch: seq<int>, turns: seq<Turn>, w: int)
    requires Valid(s) && Waits(s, w) && IsBatch(s, batch) && |batch| <= |turns| && TurnsLeave(turns, w)
    ensures var (s', p) := RunRows(s, batch, turns, 0);
      w in Elements(batch, 0, p)
      || (&& Valid(s') && Waits(s', w) && s'.rows[w] == s.rows[w]
          && Older(s', w) <= Older(s, w) && |Older(s', w)| + p <= |Older(s, w)|
          && forall v :: v in Older(s', w) ==> s'.rows[v].wellFormed == s.rows[v].wellFormed)
  {
    var (s', p) := RunRows(s, batch, turns, 0);
    if w !in Elements(batch, 0, p) {
      RunClears(s, w, batch, turns, 0);
      BatchInFront(s, batch, w, p);
      DistinctElements(s, batch, p);
      SubsetSize(Older(s', w), Older(s, w) - Elements(batch, 0, p));
    }
  }

  // ----- many runs -----

  /** A run, and what arrives before it. */
  datatype Run = Run(between: seq<Arrival>, batch: seq<int>, turns: seq<Turn>)

  /** The batches are what filter_rows returns, and nobody resets w. */
  predicate Runs(s: Store, runs: seq<Run>, w: int)
    decreases |runs|
  {
    runs == [] ||
    (var r := runs[0];
     var s1 := ArriveAll(s, r.between);
     && Leaves(r.between, w) && TurnsLeave(r.turns, w)
     && |r.batch| <= |r.turns| && IsBatch(s1, r.batch)
     && Runs(RunRows(s1, r.batch, r.turns, 0).0, runs[1..], w))
  }

  /** How many rows the runs process in all. */
  function Processed(s: Store, runs: seq<Run>, w: int): nat
    requires Runs(s, runs, w)
    decreases |runs|
  {
    if runs == [] then 0
    else
      var (s', p) := RunRows(ArriveAll(s, runs[0].between), runs[0].batch, runs[0].turns, 0);
      p + Processed(s', runs[1..], w)
  }

  /** Some run processes w. */
  predicate Reached(s: Store, runs: seq<Run>, w: int)
    requires Runs(s, runs, w)
    decreases |runs|
  {
    runs != [] &&
    (var (s', p) := RunRows(ArriveAll(s, runs[0].between), runs[0].batch, runs[0].turns, 0);
     w in Elements(runs[0].batch, 0, p) || Reached(s', runs[1..], w))
  }

  /** A row with r pending rows in front is processed by the time the runs have processed r + 1 rows. */
  lemma {:induction false} ReachedByCount(s: Store, runs: seq<Run>, w: int)
    requires Valid(s) && Waits(s, w) && Runs(s, runs, w) && Processed(s, runs, w) > |Older(s, w)|
    ensures Reached(s, runs, w)
    decreases |runs|
  {
    ArrivalsLineUp(s, w, runs[0].between);
    var s1 := ArriveAll(s, runs[0].between);
    SubsetSize(Older(s1, w), Older(s, w));
    RunProgress(s1, runs[0].batch, runs[0].turns, w);
    var (s2, p) := RunRows(s1, runs[0].batch, runs[0].turns, 0);
    if w !in Elements(runs[0].batch, 0, p) {
      ReachedByCount(s2, runs[1..], w);
    }
  }

  /** w and the rows in front of it are well formed. */
  predicate FrontWellFormed(s: Store, w: int)
    requires w in s.rows
  {
    s.rows[w].wellFormed && forall v :: v in Older(s, w) ==> s.rows[v].wellFormed
  }

  lemma {:induction false} ArrivalsKeepRows(s: Store, arrivals: seq<Arrival>)
    requires Valid(s)
    ensures var s' := ArriveAll(s, arrivals);
      Valid(s') && forall v :: v in s.rows ==> v in s'.rows && s'.rows[v].wellFormed == s.rows[v].wellFormed
    decreases |arrivals|
  {
    if arrivals != [] {
      assert Valid(Arrive(s, arrivals[0]));
      ArrivalsKeepRows(Arrive(s, arrivals[0]), arrivals[1..]);
    }
  }

  /** Where a run that has not reached w can have stopped: only behind a crash. */
  lemma {:induction false} StopsAtCrash(s: Store, batch: seq<int>, turns: seq<Turn>, i: nat)
    requires Valid(s) && i <= |batch| <= |turns|
    requires forall k :: i <= k < |batch| ==> batch[k] in s.rows
    requires forall k, l :: i <= k < l < |batch| ==> batch[k] != batch[l]
    ensures var p := RunRows(s, batch, turns, i).1;
      p < |batch| ==> !s.rows[batch[p]].wellFormed || (p > i && turns[p - 1].outcome.Crashed?)
    decreases |batch| - i
  {
    if i < |batch| {
      var s1 := ArriveAll(s, turns[i].before);
      ArrivalsKeepRows(s, turns[i].before);
      var s2 := Process(s1, batch[i], turns[i].outcome);
      if !(batch[i] in s1.rows && !s1.rows[batch[i]].wellFormed) && !turns[i].outcome.Crashed? {
        assert Valid(s2);
        StopsAtCrash(s2, batch, turns, i + 1);
      }
    }
  }

  /** With a well-formed front, a run that does not reach w processes a row at least, and a full chunk unless it crashes. */
  lemma RunsAdvance(s: Store, batch: seq<int>, turns: seq<Turn>, w: int)
    requires Valid(s) && Waits(s, w) && IsBatch(s, batch) && |batch| <= |turns| && FrontWellFormed(s, w)
    ensures var p := RunRows(s, batch, turns, 0).1;
      w in Elements(batch, 0, p)
      || (p >= 1 && ((forall i :: 0 <= i < |turns| ==> !turns[i].outcome.Crashed?) ==> p == CHUNK_SIZE))
  {
    var p := RunRows(s, batch, turns, 0).1;
    if w !in Elements(batch, 0, p) {
      BatchInFront(s, batch, w, p);
      StopsAtCrash(s, batch, turns, 0);
      if p == |batch| {
        DistinctElements(s, batch, p);
        assert w in Pending(s) && w !in Older(s, w);
        SubsetSize(Older(s, w) + {w}, Pending(s));
        SubsetSize(Elements(batch, 0, p), Older(s, w));
      }
    }
  }

  /** Starvation freedom: even if every run crashes on its first row, r + 1 runs reach a row with r in front. */
  lemma {:induction false} ReachedDespiteCrashes(s: Store, runs: seq<Run>, w: int)
    requires Valid(s) && Waits(s, w) && FrontWellFormed(s, w) && Runs(s, runs, w) && |runs| > |Older(s, w)|
    ensures Reached(s, runs, w)
    decreases |runs|
  {
    var s1 := ArriveAll(s, runs[0].between);
    ArrivalsLineUp(s, w, runs[0].between);
    SubsetSize(Older(s1, w), Older(s, w));
    RunsAdvance(s1, runs[0].batch, runs[0].turns, w);
    RunProgress(s1, runs[0].batch, runs[0].turns, w);
    var (s2, p) := RunRows(s1, runs[0].batch, runs[0].turns, 0);
    if w !in Elements(runs[0].batch, 0, p) {
      ReachedDespiteCrashes(s2, runs[1..], w);
    }
  }

  /** If no run crashes, r / CHUNK_SIZE + 1 runs are enough. */
  lemma {:induction false} ReachedInChunks(s: Store, runs: seq<Run>, w: int)
    requires Valid(s) && Waits(s, w) && FrontWellFormed(s, w) && Runs(s, runs, w)
    requires forall k :: 0 <= k < |runs| ==> forall i :: 0 <= i < |runs[k].turns| ==> !runs[k].turns[i].outcome.Crashed?
    requires |runs| >= |Older(s, w)| / CHUNK_SIZE + 1
    ensures Reached(s, runs, w)
    decreases |runs|
  {
    var s1 := ArriveAll(s, runs[0].between);
    ArrivalsLineUp(s, w, runs[0].between);
    SubsetSize(Older(s1, w), Older(s, w));
    RunsAdvance(s1, runs[0].batch, runs[0].turns, w);
    RunProgress(s1, runs[0].batch, runs[0].turns, w);
    var (s2, p) := RunRows(s1, runs[0].batch, runs[0].turns, 0);
    if w !in Elements(runs[0].batch, 0, p) {
      assert |Older(s2, w)| + CHUNK_SIZE <= |Older(s, w)|;
      ReachedInChunks(s2, runs[1..], w);
    }
  }

  // ----- rows whose webhook exists -----

  /** The row is there and its webhook exists. */
  predicate Settled(s: Store, w: int) {
    w in s.rows && !s.rows[w].pending
  }

  lemma {:induction false} ArrivalsLeaveSettled(s: Store, w: int, arrivals: seq<Arrival>)
    requires Settled(s, w) && Leaves(arrivals, w)
    ensures Settled(ArriveAll(s, arrivals), w)
    decreases |arrivals|
  {
    if arrivals != [] {
      assert arrivals[0] in arrivals;
      ArrivalsLeaveSettled(Arrive(s, arrivals[0]), w, arrivals[1..]);
    }
  }

  /** The rest of a run does not process the row again. */
  lemma {:induction false} RunLeavesSettled(s: Store, w: int, batch: seq<int>, turns: seq<Turn>, i: nat)
    requires Settled(s, w) && i <= |batch| <= |turns| && TurnsLeave(turns, w)
    requires forall k :: i <= k < |batch| ==> batch[k] != w
    ensures Settled(RunRows(s, batch, turns, i).0, w)
    decreases |batch| - i
  {
    if i < |batch| {
      ArrivalsLeaveSettled(s, w, turns[i].before);
      var s1 := ArriveAll(s, turns[i].before);
      var s2 := Process(s1, batch[i], turns[i].outcome);
      if !(batch[i] in s1.rows && !s1.rows[batch[i]].wellFormed) && !turns[i].outcome.Crashed? {
        assert Settled(s2, w);
        RunLeavesSettled(s2, w, batch, turns, i + 1);
      }
    }
  }

  lemma {:induction false} RunSettles(s: Store, batch: seq<int>, turns: seq<Turn>, i: nat, j: nat)
    requires Valid(s) && i <= j < |batch| <= |turns| && batch[j] in s.rows && TurnsLeave(turns, batch[j])
    requires forall k, l :: i <= k < l < |batch| ==> batch[k] != batch[l]
    requires j < RunRows(s, batch, turns, i).1 && (turns[j].outcome == Installed || turns[j].outcome == Present)
    ensures Settled(RunRows(s, batch, turns, i).0, batch[j])
    decreases |batch| - i
  {
    ArrivalsLineUp(s, batch[j], turns[i].before);
    var s1 := ArriveAll(s, turns[i].before);
    var s2 := Process(s1, batch[i], turns[i].outcome);
    if i == j {
      RunLeavesSettled(s2, batch[j], batch, turns, i + 1);
    } else {
      ProcessedGoesBehind(s1, batch[j], batch[i], turns[i].outcome);
      RunSettles(s2, batch, turns, i + 1, j);
    }
  }

  /** Some run fetches w. */
  predicate Fetched(s: Store, runs: seq<Run>, w: int)
    requires Runs(s, runs, w)
    decreases |runs|
  {
    runs != [] &&
    (w in runs[0].batch || Fetched(RunRows(ArriveAll(s, runs[0].between), runs[0].batch, runs[0].turns, 0).0, runs[1..], w))
  }

  lemma {:induction false} SettledIsNotFetched(s: Store, runs: seq<Run>, w: int)
    requires Settled(s, w) && Runs(s, runs, w)
    ensures !Fetched(s, runs, w)
    decreases |runs|
  {
    if runs != [] {
      var s1 := ArriveAll(s, runs[0].between);
      ArrivalsLeaveSettled(s, w, runs[0].between);
      assert w !in Pending(s1);
      RunLeavesSettled(s1, w, runs[0].batch, runs[0].turns, 0);
      SettledIsNotFetched(RunRows(s1, runs[0].batch, runs[0].turns, 0).0, runs[1..], w);
    }
  }

  /**
   Once a run has installed a row's webhook, or found that it exists, no later run fetches the row,
   as long as nobody resets it.
   */
  lemma InstalledOnce(s: Store, runs: seq<Run>, j: nat)
    requires Valid(s) && runs != [] && j < |runs[0].batch| && Runs(s, runs, runs[0].batch[j])
    requires j < RunRows(ArriveAll(s, runs[0].between), runs[0].batch, runs[0].turns, 0).1
    requires runs[0].turns[j].outcome == Installed || runs[0].turns[j].outcome == Present
    ensures !Fetched(RunRows(ArriveAll(s, runs[0].between), runs[0].batch, runs[0].turns, 0).0, runs[1..], runs[0].batch[j])
  {
    var r, w := runs[0], runs[0].batch[j];
    var s1 := ArriveAll(s, r.between);
    ArrivalsKeepRows(s, r.between);
    assert w in Pending(s1);
    RunSettles(s1, r.batch, r.turns, 0, j);
    SettledIsNotFetched(RunRows(s1, r.batch, r.turns, 0).0, runs[1..], w);
  }

  // ----- malformed rows -----

  lemma {:induction false} StopsAtMalformed(s: Store, batch: seq<int>, turns: seq<Turn>, i: nat, j: nat)
    requires Valid(s) && i <= j < |batch| <= |turns|
    requires batch[j] in s.rows && !s.rows[batch[j]].wellFormed
    requires forall k, l :: i <= k < l < |batch| ==> batch[k] != batch[l]
    ensures RunRows(s, batch, turns, i).1 <= j
    decreases |batch| - i
  {
    var s1 := ArriveAll(s, turns[i].before);
    ArrivalsKeepRows(s, turns[i].before);
    if i < j && !(batch[i] in s1.rows && !s1.rows[batch[i]].wellFormed) && !turns[i].outcome.Crashed? {
      ProcessedGoesBehind(s1, batch[j], batch[i], turns[i].outcome);
      StopsAtMalformed(Process(s1, batch[i], turns[i].outcome), batch, turns, i + 1, j);
    }
  }

  /** A run processes neither a malformed row nor any row behind it. */
  lemma MalformedBlocksRun(s: Store, batch: seq<int>, turns: seq<Turn>, x: int, w: int)
    requires Valid(s) && Waits(s, w) && IsBatch(s, batch) && |batch| <= |turns|
    requires Ahead(s, x, w) && !s.rows[x].wellFormed
    ensures var p := RunRows(s, batch, turns, 0).1; w !in Elements(batch, 0, p) && x !in Elements(batch, 0, p)
  {
    var p := RunRows(s, batch, turns, 0).1;
    forall k | 0 <= k < p ensures batch[k] != w && batch[k] != x {
      if batch[k] == w || batch[k] == x {
        assert x in Pending(s) && x in batch;
        var j :| 0 <= j < |batch| && batch[j] == x;
        StopsAtMalformed(s, batch, turns, 0, j);
      }
    }
  }

  /** As long as nobody resets it, a malformed row keeps every row behind it from being processed, for ever. */
  lemma {:induction false} MalformedStarves(s: Store, runs: seq<Run>, x: int, w: int)
    requires Valid(s) && Waits(s, w) && Runs(s, runs, w) && Runs(s, runs, x)
    requires Ahead(s, x, w) && !s.rows[x].wellFormed
    ensures !Reached(s, runs, w)
    decreases |runs|
  {
    if runs != [] {
      var s1 := ArriveAll(s, runs[0].between);
      ArrivalsLineUp(s, w, runs[0].between);
      ArrivalsLineUp(s, x, runs[0].between);
      MalformedBlocksRun(s1, runs[0].batch, runs[0].turns, x, w);
      RunProgress(s1, runs[0].batch, runs[0].turns, w);
      RunProgress(s1, runs[0].batch, runs[0].turns, x);
      MalformedStarves(RunRows(s1, runs[0].batch, runs[0].turns, 0).0, runs[1..], x, w);
    }
  }

  /**
   Which rows are served: of runs that outnumber the rows in front of w, one processes w exactly when
   w and all the rows in front of it name exactly one resource, provided that no row is malformed
   that might come before w or after it.
   */
  lemma ReachedExactly(s: Store, runs: seq<Run>, w: int)
    requires Valid(s) && Waits(s, w) && |runs| > |Older(s, w)| && Runs(s, runs, w)
    requires forall x :: x in Older(s, w) ==> Runs(s, runs, x)
    requires forall x :: x in Older(s, w) && s.rows[x].synced == s.rows[w].synced ==> s.rows[x].wellFormed
    ensures Reached(s, runs, w) <==> FrontWellFormed(s, w)
  {
    if FrontWellFormed(s, w) {
      ReachedDespiteCrashes(s, runs, w);
    } else {
      var x :| x in Older(s, w) + {w} && !s.rows[x].wellFormed;
      MalformedStarves(s, runs, x, w);
    }
  }

  // ----- the job -----

  /** The batch holds the pending rows that are not left, none newer than those, in order. */
  predicate Taken(s: Store, batch: seq<int>, left: set<int>) {
    && left <= Pending(s)
    && (forall w :: w in Pending(s) ==> w in batch || w in left)
    && (forall i :: 0 <= i < |batch| ==> batch[i] in Pending(s) && batch[i] !in left)
    && (forall i, j :: 0 <= i < j < |batch| ==> batch[i] != batch[j])
    && (forall i, w :: 0 <= i < |batch| && w in left ==> s.rows[batch[i]].synced <= s.rows[w].synced)
    && (forall i, j :: 0 <= i < j < |batch| ==> s.rows[batch[i]].synced <= s.rows[batch[j]].synced)
  }

  lemma TakeOldest(s: Store, batch: seq<int>, left: set<int>, w: int)
    requires Taken(s, batch, left)
    requires w in left && forall v :: v in left ==> s.rows[w].synced <= s.rows[v].synced
    ensures Taken(s, batch + [w], left - {w})
  {
    var longer := batch + [w];
    forall v | v in Pending(s) ensures v in longer || v in left - {w} {
      assert v in batch ==> v in longer;
      assert longer[|batch|] == w;
    }
    forall i | 0 <= i < |longer|
      ensures longer[i] in Pending(s) && longer[i] !in left - {w}
      ensures forall v :: v in left - {w} ==> s.rows[longer[i]].synced <= s.rows[v].synced
    {
      if i < |batch| {
        assert longer[i] == batch[i];
      }
    }
  }

  class GitlabWebhookStore {
    var store: Store

    constructor (store: Store)
      ensures this.store == store
    {
      this.store := store;
    }

    /** The row that was synced longest ago, among those left. */
    method Oldest(left: set<int>) returns (w: int)
      requires left != {} && forall v :: v in left ==> v in store.rows
      ensures w in left && forall v :: v in left ==> store.rows[w].synced <= store.rows[v].synced
    {
      w := Any(left);
      var todo := left - {w};
      while todo != {}
        invariant w in left && todo <= left
        invariant forall v :: v in left && v !in todo ==> store.rows[w].synced <= store.rows[v].synced
        decreases |todo|
      {
        var v := Any(todo);
        if store.rows[v].synced < store.rows[w].synced {
          w := v;
        }
        todo := todo - {v};
      }
    }

    /** filter_rows: SELECT ... WHERE NOT webhook_exists ORDER BY last_synced LIMIT 100. */
    method FilterRows() returns (batch: seq<int>)
      ensures IsBatch(store, batch)
      ensures |batch| <= 100 && (|batch| < 100 ==> forall w :: w in store.rows && store.rows[w].pending ==> w in batch)
    {
      batch := [];
      var left := Pending(store);
      while left != {} && |batch| < CHUNK_SIZE
        invariant Taken(store, batch, left) && |batch| + |left| == |Pending(store)| && |batch| <= CHUNK_SIZE
        decreases |left|
      {
        var w := Oldest(left);
        TakeOldest(store, batch, left, w);
        batch := batch + [w];
        left := left - {w};
      }
      if |batch| < CHUNK_SIZE {
        assert forall w :: w in Pending(store) ==> w in batch;
      }
    }

    /** What others write while the job runs. */
    method Write(arrivals: seq<Arrival>)
      modifies this
      ensures store == ArriveAll(old(store), arrivals)
    {
      var i := 0;
      while i < |arrivals|
        invariant i <= |arrivals|
        invariant ArriveAll(old(store), arrivals) == ArriveAll(store, arrivals[i..])
      {
        store := Arrive(store, arrivals[i]);
        i := i + 1;
      }
    }

    /** update_last_synced: it raises for a row that does not name exactly one resource. */
    method UpdateLastSynced(w: int) returns (raised: bool)
      modifies this
      ensures raised == (w in old(store).rows && !old(store).rows[w].wellFormed)
      ensures store == if raised || w !in old(store).rows then old(store) else Stamp(old(store), w, old(store).rows[w])
    {
      if w !in store.rows {
        return false;
      }
      if !store.rows[w].wellFormed {
        return true;
      }
      store := Stamp(store, w, store.rows[w]);
      return false;
    }

    /** The body of the loop: determine_resource_type raises first, and the finally block stamps the row. */
    method ProcessRow(w: int, outcome: Outcome) returns (raised: bool)
      modifies this
      ensures var malformed := w in old(store).rows && !old(store).rows[w].wellFormed;
        && raised == (malformed || outcome.Crashed?)
        && store == if malformed then old(store) else Process(old(store), w, outcome)
    {
      raised := outcome.Crashed?;
      if w in store.rows {
        if !store.rows[w].wellFormed {
          raised := true;
        } else if outcome.Installed? || outcome.Present? {
          store := store.(rows := store.rows[w := store.rows[w].(pending := false)]);
        } else if outcome.Gone? {
          store := store.(rows := store.rows - {w});
        }
      }
      var ignored := UpdateLastSynced(w);
    }

    /** The loop of install_webhooks. */
    method InstallWebhooks(turns: seq<Turn>) returns (batch: seq<int>, processed: nat)
      requires |turns| >= CHUNK_SIZE
      modifies this
      ensures IsBatch(old(store), batch)
      ensures (store, processed) == RunRows(old(store), batch, turns, 0)
    {
      batch := FilterRows();
      processed := 0;
      ghost var start := store;
      while processed < |batch|
        invariant processed <= |batch| <= |turns|
        invariant RunRows(start, batch, turns, 0) == RunRows(store, batch, turns, processed)
      {
        var w := batch[processed];
        Write(turns[processed].before);
        var malformed := w in store.rows && !store.rows[w].wellFormed;
        var raised := ProcessRow(w, turns[processed].outcome);
        if malformed {
          return;
        }
        processed := processed + 1;
        if raised {
          return;
        }
      }
    }
  }
}

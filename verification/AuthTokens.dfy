/**
 Loading and refreshing the tokens of one user at one identity provider.

 The row is read without a lock first; only a request that finds the access token expired takes
 the row lock, checks again, and redeems the refresh token.  A refresh token is good for a single
 redemption, so the lock must keep requests from redeeming the same one.  The events below are the
 atomic pieces of a request: each is one round trip to the database or to the identity provider.
 */
module AuthTokens {
  import opened Wrappers

  const ACCESS_TOKEN_EXPIRY_BUFFER := 900

  datatype Row = Row(access: int, refresh: int, accessExpiresAt: int, refreshExpiresAt: int)

  /** The first result of _is_token_expired, the only one used; an expiry of 0 means the token does not expire. */
  predicate NeedsRefresh(row: Row, now: int) {
    row.accessExpiresAt != 0 && row.accessExpiresAt < now + ACCESS_TOKEN_EXPIRY_BUFFER
  }

  /**
   How far a request is.  `begin` and `end` number the version of the row that was current when the
   request began and when it returned.
   */
  datatype Request =
    | Idle
    | WantsLock(begin: nat)
    | HoldsLock(begin: nat, row: Row)
    | Redeemed(begin: nat, issued: Row)
    | Done(begin: nat, end: nat, result: Option<Row>)
    | Failed

  /** What the refresh callback does with the refresh token it is given. */
  datatype Reply =
    | NotNeeded
    | Issued(row: Row)
    | Raised(consumed: bool)

  datatype Event =
    | FastRead(r: int, canRefresh: bool)
    | Acquire(r: int)
    | LockTimeout(r: int)
    | Refresh(r: int, reply: Reply)
    | Commit(r: int)
    | CommitFails(r: int)
    | StoreTokens(row: Row)
    | Tick

  /**
   The table row with all its versions (the last is current), the holder of the row lock, the
   requests, the refresh tokens the identity provider has redeemed, and those among them whose
   replacement was never written.
   */
  datatype State = State(
    now: int,
    versions: seq<Option<Row>>,
    lock: Option<int>,
    requests: map<int, Request>,
    redeemed: seq<int>,
    lost: set<int>)
  {
    function At(r: int): Request {
      if r in requests then requests[r] else Idle
    }

    function Current(): Option<Row>
      requires versions != []
    {
      versions[|versions| - 1]
    }

    function Set(r: int, request: Request): State {
      this.(requests := requests[r := request])
    }

    function Return(r: int, begin: nat, result: Option<Row>): State
      requires versions != []
    {
      Set(r, Done(begin, |versions| - 1, result))
    }
  }

  function Step(s: State, e: Event): (s': State)
    requires s.versions != []
    ensures s'.versions != []
  {
    match e
    case FastRead(r, canRefresh) =>
      if !s.At(r).Idle? then s
      else if s.Current().None? then s.Return(r, |s.versions| - 1, None)
      else if !NeedsRefresh(s.Current().value, s.now) || !canRefresh then s.Return(r, |s.versions| - 1, s.Current())
      else s.Set(r, WantsLock(|s.versions| - 1))
    case Acquire(r) =>
      if !s.At(r).WantsLock? || s.lock.Some? then s
      else if s.Current().None? || !NeedsRefresh(s.Current().value, s.now) then s.Return(r, s.At(r).begin, s.Current())
      else s.Set(r, HoldsLock(s.At(r).begin, s.Current().value)).(lock := Some(r))
    case LockTimeout(r) =>
      if s.At(r).WantsLock? && s.lock.Some? then s.Set(r, Failed) else s
    case Refresh(r, reply) =>
      if !s.At(r).HoldsLock? then s
      else
        var HoldsLock(begin, row) := s.At(r);
        (match reply
         case NotNeeded => s.Return(r, begin, Some(row)).(lock := None)
         case Issued(issued) => s.Set(r, Redeemed(begin, issued)).(redeemed := s.redeemed + [row.refresh])
         case Raised(consumed) =>
           if consumed
           then s.Set(r, Failed).(lock := None, redeemed := s.redeemed + [row.refresh], lost := s.lost + {row.refresh})
           else s.Set(r, Failed).(lock := None))
    case Commit(r) =>
      if !s.At(r).Redeemed? then s
      else
        var Redeemed(begin, issued) := s.At(r);
        s.(versions := s.versions + [Some(issued)], lock := None).Return(r, begin, Some(issued))
    case CommitFails(r) =>
      if !s.At(r).Redeemed? || s.Current().None? then s
      else s.Set(r, Failed).(lock := None, lost := s.lost + {s.Current().value.refresh})
    case StoreTokens(row) =>
      if s.lock.Some? then s else s.(versions := s.versions + [Some(row)])
    case Tick => s.(now := s.now + 1)
  }

  function Run(s: State, events: seq<Event>): (s': State)
    requires s.versions != []
    ensures s'.versions != []
    decreases |events|
  {
    if events == [] then s else Run(Step(s, events[0]), events[1..])
  }

  // ----- which requests refresh -----

  /**
   An idle request over a row returns at once, without a lock, exactly when it cannot refresh or the
   access token lasts for another 15 minutes; otherwise it goes for the lock.
   */
  lemma FastPathExactly(s: State, r: int, canRefresh: bool)
    requires s.versions != [] && s.At(r).Idle? && s.Current().Some?
    ensures var row := s.Current().value;
      var after := Step(s, FastRead(r, canRefresh));
      && (after.At(r).Done? <==> !canRefresh || row.accessExpiresAt == 0 || row.accessExpiresAt >= s.now + 15 * 60)
      && (after.At(r).Done? ==> after.At(r).result == Some(row))
      && (!after.At(r).Done? ==> after.At(r).WantsLock?)
      && after.lock == s.lock && after.versions == s.versions && after.redeemed == s.redeemed
  {
  }

  /** The second check, with the lock free: the request takes the lock exactly when the row still expires within 15 minutes. */
  lemma SecondCheckExactly(s: State, r: int)
    requires s.versions != [] && s.At(r).WantsLock? && s.lock.None? && s.Current().Some?
    ensures var row := s.Current().value;
      var after := Step(s, Acquire(r));
      && (after.At(r).Done? <==> row.accessExpiresAt == 0 || row.accessExpiresAt >= s.now + 15 * 60)
      && (after.At(r).Done? ==> after.At(r).result == Some(row) && after.lock.None?)
      && (!after.At(r).Done? ==> after.At(r).HoldsLock? && after.At(r).row == row && after.lock == Some(r))
  {
  }

  /**
   Undisturbed, a request that can refresh redeems the row's refresh token and replaces the row
   exactly when the row has an expiry less than 15 minutes ahead.
   */
  lemma RefreshesExactly(s: State, r: int, issued: Row)
    requires s.versions != [] && s.At(r).Idle? && s.lock.None? && s.Current().Some?
    ensures var row := s.Current().value;
      var after := Run(s, [FastRead(r, true), Acquire(r), Refresh(r, Issued(issued)), Commit(r)]);
      var expires := row.accessExpiresAt != 0 && row.accessExpiresAt < s.now + 15 * 60;
      && after.redeemed == s.redeemed + (if expires then [row.refresh] else [])
      && after.versions == s.versions + (if expires then [Some(issued)] else [])
      && after.At(r).Done? && after.At(r).result == Some(if expires then issued else row)
      && after.lock.None?
  {
    var e1, e2, e3, e4 := FastRead(r, true), Acquire(r), Refresh(r, Issued(issued)), Commit(r);
    var s1 := Step(s, e1);
    var s2 := Step(s1, e2);
    var s3 := Step(s2, e3);
    assert [e1, e2, e3, e4][1..] == [e2, e3, e4] && [e2, e3, e4][1..] == [e3, e4] && [e3, e4][1..] == [e4];
    assert Run(Step(s3, e4), []) == Step(s3, e4);
    assert [e4][1..] == [] && Run(s3, [e4]) == Step(s3, e4);
    assert Run(s1, [e2, e3, e4]) == Run(s2, [e3, e4]) == Run(s3, [e4]);
    assert Run(s, [e1, e2, e3, e4]) == Step(s3, e4);
    FastPathExactly(s, r, true);
    if s1.At(r).WantsLock? {
      SecondCheckExactly(s1, r);
    }
  }

  /**
   What the holder of the lock makes of the callback's reply.  Unless new tokens were issued, the call
   ends here and the lock is free again, with the row as result or as a failure; the refresh token
   counts as redeemed if it was consumed, and as lost if nothing came of that.
   */
  lemma RepliesExactly(s: State, r: int, reply: Reply)
    requires s.versions != [] && s.At(r).HoldsLock?
    ensures var after := Step(s, Refresh(r, reply));
      var token := s.At(r).row.refresh;
      && after.versions == s.versions
      && (reply == NotNeeded ==>
            after.At(r).Done? && after.At(r).result == Some(s.At(r).row) && after.lock.None?
            && after.redeemed == s.redeemed && after.lost == s.lost)
      && (reply.Raised? ==>
            after.At(r) == Failed && after.lock.None?
            && after.redeemed == s.redeemed + (if reply.consumed then [token] else [])
            && after.lost == s.lost + if reply.consumed then {token} else {})
      && (reply.Issued? ==>
            after.At(r).Redeemed? && after.At(r).issued == reply.row && after.lock == s.lock
            && after.redeemed == s.redeemed + [token] && after.lost == s.lost)
  {
  }

  /** A transaction that does not commit leaves the row as it was and frees the lock; its call fails. */
  lemma CommitsExactly(s: State, r: int)
    requires s.versions != [] && s.At(r).Redeemed? && s.Current().Some?
    ensures var done, failed := Step(s, Commit(r)), Step(s, CommitFails(r));
      && done.Current() == Some(s.At(r).issued) && done.At(r).Done? && done.At(r).result == Some(s.At(r).issued)
      && done.lock.None? && done.lost == s.lost
      && failed.versions == s.versions && failed.At(r) == Failed
      && failed.lock.None? && failed.lost == s.lost + {s.Current().value.refresh}
  {
  }

  /** Waiting for the lock ends in failure exactly while another request keeps it; a login waits for it, and then writes the row. */
  lemma WaitsExactly(s: State, r: int, row: Row)
    requires s.versions != []
    ensures s.At(r).WantsLock? ==> (Step(s, LockTimeout(r)).At(r) == Failed <==> s.lock.Some?)
    ensures s.At(r).WantsLock? && s.lock.Some? ==> Step(s, Acquire(r)) == s
    ensures var after := Step(s, StoreTokens(row));
      after.lock == s.lock && after.requests == s.requests && after.Current() == if s.lock.None? then Some(row) else s.Current()
  {
  }

  // ----- no refresh token is redeemed twice -----

  ghost predicate NoDuplicates(tokens: seq<int>) {
    forall i, j :: 0 <= i < j < |tokens| ==> tokens[i] != tokens[j]
  }

  /** Refresh tokens that were ever stored, issued or redeemed. */
  ghost predicate Known(s: State, token: int) {
    || (exists i :: 0 <= i < |s.versions| && s.versions[i].Some? && s.versions[i].value.refresh == token)
    || (exists r :: s.At(r).Redeemed? && s.At(r).issued.refresh == token)
    || token in s.redeemed
  }

  /** The identity provider issues a new refresh token every time, on refresh and on login. */
  ghost predicate Fresh(s: State, e: Event) {
    && (e.Refresh? && e.reply.Issued? ==> !Known(s, e.reply.row.refresh))
    && (e.StoreTokens? ==> !Known(s, e.row.refresh))
  }

  ghost predicate RunFresh(s: State, events: seq<Event>)
    requires s.versions != []
    decreases |events|
  {
    events == [] || (Fresh(s, events[0]) && RunFresh(Step(s, events[0]), events[1..]))
  }

  ghost predicate Locked(s: State, r: int) {
    s.At(r).HoldsLock? || s.At(r).Redeemed?
  }

  ghost predicate HolderMatches(s: State, holder: Request, row: Row) {
    match holder
    case HoldsLock(_, locked) => locked == row
    case Redeemed(_, issued) => row.refresh in s.redeemed && issued.refresh !in s.redeemed
    case _ => false
  }

  /** Mutual exclusion, and the state of the token in the row, whatever fails. */
  ghost predicate LockInv(s: State) {
    && s.versions != []
    && (forall r :: Locked(s, r) ==> s.lock == Some(r))
    && (s.lock.Some? ==> s.Current().Some? && HolderMatches(s, s.At(s.lock.value), s.Current().value))
    && (s.Current().Some? && s.Current().value.refresh in s.redeemed ==>
          s.Current().value.refresh in s.lost || (s.lock.Some? && s.At(s.lock.value).Redeemed?))
    && (forall token :: token in s.lost ==> token in s.redeemed)
    && (s.lost == {} ==> NoDuplicates(s.redeemed))
  }

  /** A request returns the version of the row that is current at its end, which is no older than its beginning. */
  ghost predicate ReturnsCurrent(versions: seq<Option<Row>>, request: Request) {
    match request
    case Done(begin, end, result) => begin <= end < |versions| && versions[end] == result
    case WantsLock(begin) => begin < |versions|
    case HoldsLock(begin, _) => begin < |versions|
    case Redeemed(begin, _) => begin < |versions|
    case _ => true
  }

  ghost predicate Inv(s: State) {
    LockInv(s) && forall r :: ReturnsCurrent(s.versions, s.At(r))
  }

  lemma CurrentIsKnown(s: State)
    requires s.versions != [] && s.Current().Some?
    ensures Known(s, s.Current().value.refresh)
  {
    assert s.versions[|s.versions| - 1].value.refresh == s.Current().value.refresh;
  }

  lemma RefreshKeepsLock(s: State, e: Event)
    requires LockInv(s) && Fresh(s, e) && e.Refresh?
    ensures LockInv(Step(s, e))
  {
    if s.At(e.r).HoldsLock? {
      assert Locked(s, e.r);
      CurrentIsKnown(s);
      var s' := Step(s, e);
      forall r | Locked(s', r) ensures s'.lock == Some(r) {
        assert r == e.r || Locked(s, r);
      }
    }
  }

  lemma CommitKeepsLock(s: State, e: Event)
    requires LockInv(s) && (e.Commit? || e.CommitFails?)
    ensures LockInv(Step(s, e))
  {
    if s.At(e.r).Redeemed? {
      assert Locked(s, e.r);
      var s' := Step(s, e);
      forall r | Locked(s', r) ensures s'.lock == Some(r) {
        assert r == e.r || Locked(s, r);
      }
    }
  }

  lemma OtherStepsKeepLock(s: State, e: Event)
    requires LockInv(s) && Fresh(s, e) && !e.Refresh? && !e.Commit? && !e.CommitFails?
    ensures LockInv(Step(s, e))
  {
    var s' := Step(s, e);
    if e.StoreTokens? && s.lock.None? {
      assert e.row.refresh !in s.redeemed;
    }
    forall r | Locked(s', r) ensures s'.lock == Some(r) {
      assert Locked(s, r) || e == Acquire(r);
    }
  }

  lemma StepReturnsCurrent(s: State, e: Event)
    requires Inv(s)
    ensures forall r :: ReturnsCurrent(Step(s, e).versions, Step(s, e).At(r))
  {
    var s' := Step(s, e);
    assert Locked(s, if e.StoreTokens? || e.Tick? then 0 else e.r) ==> s.lock.Some?;
    forall r ensures ReturnsCurrent(s'.versions, s'.At(r)) {
      assert ReturnsCurrent(s.versions, s.At(r));
    }
  }

  lemma StepKeepsInv(s: State, e: Event)
    requires Inv(s) && Fresh(s, e)
    ensures Inv(Step(s, e))
  {
    if e.Refresh? {
      RefreshKeepsLock(s, e);
    } else if e.Commit? || e.CommitFails? {
      CommitKeepsLock(s, e);
    } else {
      OtherStepsKeepLock(s, e);
    }
    StepReturnsCurrent(s, e);
  }

  lemma {:induction false} RunKeepsInv(s: State, events: seq<Event>)
    requires Inv(s) && RunFresh(s, events)
    ensures Inv(Run(s, events))
    decreases |events|
  {
    if events != [] {
      StepKeepsInv(s, events[0]);
      RunKeepsInv(Step(s, events[0]), events[1..]);
    }
  }

  ghost predicate Initial(s: State) {
    && s.versions != [] && s.lock.None? && s.requests == map[] && s.redeemed == [] && s.lost == {}
  }

  /** No failure separates a redemption from the write of its replacement. */
  predicate NothingLost(events: seq<Event>) {
    forall i :: 0 <= i < |events| ==> !events[i].CommitFails? && !(events[i].Refresh? && events[i].reply == Raised(true))
  }

  lemma {:induction false} LostStaysEmpty(s: State, events: seq<Event>)
    requires s.versions != [] && s.lost == {} && NothingLost(events)
    ensures Run(s, events).lost == {}
    decreases |events|
  {
    if events != [] {
      assert !events[0].CommitFails?;
      LostStaysEmpty(Step(s, events[0]), events[1..]);
    }
  }

  /**
   Under any interleaving of requests and logins, if every redemption is written back, no refresh
   token is redeemed twice.
   */
  lemma NeverRedeemedTwice(s: State, events: seq<Event>)
    requires Initial(s) && RunFresh(s, events) && NothingLost(events)
    ensures NoDuplicates(Run(s, events).redeemed)
  {
    RunKeepsInv(s, events);
    LostStaysEmpty(s, events);
  }

  /**
   With failures: a redemption in any reachable state repeats an earlier one exactly when the
   replacement of the token in the row was lost.
   */
  lemma RedeemsAgainExactly(s: State, events: seq<Event>, r: int, issued: Row)
    requires Initial(s) && RunFresh(s, events) && Run(s, events).At(r).HoldsLock?
    ensures var reached := Run(s, events);
      && Step(reached, Refresh(r, Issued(issued))).redeemed == reached.redeemed + [reached.At(r).row.refresh]
      && (reached.At(r).row.refresh in reached.redeemed <==> reached.At(r).row.refresh in reached.lost)
  {
    RunKeepsInv(s, events);
    var reached := Run(s, events);
    assert Locked(reached, r);
  }

  /** It does happen: a failed commit leaves the redeemed token in the row for the next request. */
  lemma FailedCommitRedeemsTwice(row: Row, next: Row, other: Row)
    requires NeedsRefresh(row, 0)
    ensures
      var s := State(0, [Some(row)], None, map[], [], {});
      var failed := Step(Step(Step(Step(s, FastRead(1, true)), Acquire(1)), Refresh(1, Issued(next))), CommitFails(1));
      Step(Step(Step(failed, FastRead(2, true)), Acquire(2)), Refresh(2, Issued(other))).redeemed == [row.refresh, row.refresh]
  {
  }

  /** Every caller gets a version of the row that was current at some moment of its call. */
  lemma CallerSeesARealRow(s: State, events: seq<Event>, r: int)
    requires Initial(s) && RunFresh(s, events) && Run(s, events).At(r).Done?
    ensures var reached := Run(s, events);
      var request := reached.At(r);
      exists k :: request.begin <= k <= request.end && k < |reached.versions| && reached.versions[k] == request.result
  {
    RunKeepsInv(s, events);
    var reached := Run(s, events);
    assert ReturnsCurrent(reached.versions, reached.At(r));
    assert reached.versions[reached.At(r).end] == reached.At(r).result;
  }

  // ----- a burst of requests over one expired row -----

  /** The token does not need a refresh at any time up to the horizon. */
  predicate OutlivesBuffer(row: Row, horizon: int) {
    row.accessExpiresAt == 0 || row.accessExpiresAt >= horizon + ACCESS_TOKEN_EXPIRY_BUFFER
  }

  /** Requests that may refresh, each of whose refreshes succeeds with a token that outlives the buffer. */
  predicate Burst(events: seq<Event>, horizon: int) {
    forall i :: 0 <= i < |events| ==>
      && !events[i].StoreTokens? && !events[i].CommitFails?
      && (events[i].FastRead? ==> events[i].canRefresh)
      && (events[i].Refresh? ==> events[i].reply.Issued? && OutlivesBuffer(events[i].reply.row, horizon))
  }

  /** Before the first redemption. */
  ghost predicate Untouched(s: State, row: Row) {
    s.versions == [Some(row)] && s.redeemed == [] && forall r :: !s.At(r).Done? && !s.At(r).Redeemed?
  }

  /** Redeemed, and the replacement not yet written. */
  ghost predicate Writing(s: State, row: Row, horizon: int) {
    && s.versions == [Some(row)] && s.redeemed == [row.refresh]
    && s.lock.Some? && s.At(s.lock.value).Redeemed? && OutlivesBuffer(s.At(s.lock.value).issued, horizon)
    && forall r :: !s.At(r).Done?
  }

  /** The replacement is in the row, and it is what everybody gets. */
  ghost predicate Replaced(s: State, row: Row, horizon: int) {
    && |s.versions| == 2 && s.redeemed == [row.refresh] && s.lock.None?
    && s.versions[1].Some? && OutlivesBuffer(s.versions[1].value, horizon)
    && forall r :: s.At(r).Done? ==> s.At(r).result == s.versions[1]
  }

  ghost predicate BurstInv(s: State, row: Row, horizon: int) {
    && Inv(s) && NeedsRefresh(row, s.now)
    && (Untouched(s, row) || Writing(s, row, horizon) || Replaced(s, row, horizon))
  }

  /** An event of a burst that has not run past the horizon. */
  ghost predicate BurstEvent(s: State, e: Event, row: Row, horizon: int) {
    BurstInv(s, row, horizon) && Fresh(s, e) && Burst([e], horizon) && Step(s, e).now <= horizon
  }

  lemma OthersUnmoved(s: State, e: Event)
    requires s.versions != []
    ensures forall r :: e.Tick? || e.StoreTokens? || r != e.r ==> Step(s, e).At(r) == s.At(r)
  {
  }

  lemma BurstFromUntouched(s: State, e: Event, row: Row, horizon: int)
    requires BurstEvent(s, e, row, horizon) && Untouched(s, row) && !e.Tick?
    ensures Untouched(Step(s, e), row) || Writing(Step(s, e), row, horizon)
  {
    assert [e][0] == e;
    assert Locked(s, e.r) ==> s.lock == Some(e.r);
    OthersUnmoved(s, e);
  }

  lemma BurstFromWriting(s: State, e: Event, row: Row, horizon: int)
    requires BurstEvent(s, e, row, horizon) && Writing(s, row, horizon) && !e.Tick?
    ensures Writing(Step(s, e), row, horizon) || Replaced(Step(s, e), row, horizon)
  {
    assert [e][0] == e;
    assert Locked(s, e.r) ==> s.lock == Some(e.r);
    OthersUnmoved(s, e);
    if e.Commit? && s.At(e.r).Redeemed? {
      assert Step(s, e).versions == [Some(row), Some(s.At(e.r).issued)];
      assert Replaced(Step(s, e), row, horizon);
    }
  }

  lemma BurstFromReplaced(s: State, e: Event, row: Row, horizon: int)
    requires BurstEvent(s, e, row, horizon) && Replaced(s, row, horizon) && !e.Tick?
    ensures Replaced(Step(s, e), row, horizon)
  {
    assert [e][0] == e;
    assert !Locked(s, e.r);
    assert s.Current() == s.versions[1];
    OthersUnmoved(s, e);
  }

  lemma BurstStep(s: State, e: Event, row: Row, horizon: int)
    requires BurstEvent(s, e, row, horizon)
    ensures BurstInv(Step(s, e), row, horizon)
  {
    StepKeepsInv(s, e);
    if e.Tick? {
      OthersUnmoved(s, e);
    } else if Untouched(s, row) {
      BurstFromUntouched(s, e, row, horizon);
    } else if Writing(s, row, horizon) {
      BurstFromWriting(s, e, row, horizon);
    } else {
      BurstFromReplaced(s, e, row, horizon);
    }
  }

  lemma {:induction false} NowGrows(s: State, events: seq<Event>)
    requires s.versions != []
    ensures s.now <= Run(s, events).now
    decreases |events|
  {
    if events != [] {
      NowGrows(Step(s, events[0]), events[1..]);
    }
  }

  lemma {:induction false} BurstRun(s: State, events: seq<Event>, row: Row, horizon: int)
    requires BurstInv(s, row, horizon) && RunFresh(s, events) && Burst(events, horizon) && Run(s, events).now <= horizon
    ensures BurstInv(Run(s, events), row, horizon)
    decreases |events|
  {
    if events != [] {
      var e := events[0];
      NowGrows(Step(s, e), events[1..]);
      assert [e][0] == events[0];
      BurstStep(s, e, row, horizon);
      BurstRun(Step(s, e), events[1..], row, horizon);
    }
  }

  /**
   A burst of any number of requests over one expired row causes at most one refresh; once any
   request has returned there was exactly one, and every request that returns gets its tokens.
   */
  lemma BurstRefreshesOnce(s: State, events: seq<Event>, row: Row)
    requires Initial(s) && s.versions == [Some(row)] && NeedsRefresh(row, s.now) && RunFresh(s, events)
    requires Burst(events, Run(s, events).now)
    ensures var reached := Run(s, events);
      && |reached.redeemed| <= 1
      && (forall r :: reached.At(r).Done? ==>
            reached.redeemed == [row.refresh] && |reached.versions| == 2 && reached.At(r).result == reached.versions[1])
  {
    BurstRun(s, events, row, Run(s, events).now);
  }
}

/** The token store of one user at one provider: the row it keeps and how a request reads and refreshes it. */
module AuthTokenStore {
  import opened Wrappers
  import opened AuthTokens

  datatype LoadResult =
    | Tokens(row: Option<Row>)
    | TokenRefreshError
    | CallbackError
    | CommitError

  lemma {:induction false} RunSnoc(s: State, events: seq<Event>, e: Event)
    requires s.versions != []
    ensures Run(s, events + [e]) == Step(Run(s, events), e)
    decreases |events|
  {
    if events == [] {
      assert ([] + [e])[1..] == [];
    } else {
      assert (events + [e])[0] == events[0];
      assert (events + [e])[1..] == events[1..] + [e];
      RunSnoc(Step(s, events[0]), events[1..], e);
    }
  }

  lemma ReadsAddNoToken(s: State, e: Event, next: Event)
    requires s.versions != [] && (e.FastRead? || e.Acquire?) && Fresh(s, next)
    ensures Fresh(Step(s, e), next)
  {
    forall q | Step(s, e).At(q).Redeemed? ensures s.At(q) == Step(s, e).At(q) {
    }
  }

  class Store {
    var now: int
    var tokenRecord: Option<Row>
    var lockedBy: Option<int>
    ghost var state: State

    ghost predicate Valid()
      reads this
    {
      && Inv(state)
      && state.now == now && state.Current() == tokenRecord && state.lock == lockedBy
    }

    constructor (now: int, row: Option<Row>)
      ensures Valid() && Initial(state) && tokenRecord == row && this.now == now
    {
      this.now, tokenRecord, lockedBy := now, row, None;
      state := State(now, [row], None, map[], [], {});
    }

    /** Record in the ghost state that the event `e` has happened. */
    ghost method Happens(events: seq<Event>, e: Event, before: State) returns (events': seq<Event>)
      requires Inv(state) && Inv(before) && state == Run(before, events) && Fresh(state, e)
      modifies this`state
      ensures Inv(state) && state == Step(old(state), e) && events' == events + [e] && state == Run(before, events')
    {
      RunSnoc(before, events, e);
      StepKeepsInv(state, e);
      state := Step(state, e);
      events' := events + [e];
    }

    /** The part of load_tokens that runs while the row is locked. */
    method RefreshLocked(r: int, reply: Reply, commits: bool, ghost before: State, ghost events: seq<Event>)
      returns (result: LoadResult, ghost events': seq<Event>)
      requires Valid() && Inv(before) && state == Run(before, events)
      requires state.At(r).HoldsLock? && lockedBy == Some(r) && Fresh(state, Refresh(r, reply))
      modifies this
      ensures Valid() && state == Run(before, events') && now == old(now) && lockedBy.None?
      ensures result == match reply
        case NotNeeded => Tokens(old(tokenRecord))
        case Raised(_) => CallbackError
        case Issued(issued) => if commits then Tokens(Some(issued)) else CommitError
      ensures tokenRecord == if result.Tokens? then result.row else old(tokenRecord)
      ensures if result.Tokens? then state.At(r).Done? && state.At(r).result == result.row else state.At(r).Failed?
    {
      assert Locked(state, r);
      events' := Happens(events, Refresh(r, reply), before);
      lockedBy := None;
      match reply {
        case NotNeeded =>
          result := Tokens(tokenRecord);
        case Raised(_) =>
          result := CallbackError;
        case Issued(issued) =>
          result, events' := WriteBack(r, issued, commits, before, events');
      }
    }

    /**
     load_tokens, run without interruption by other requests: `reply` is what the refresh callback
     does and `commits` whether the transaction then commits.  What it does to the store is a run
     of the protocol, so everything proved about runs holds of it.
     */
    method LoadTokens(r: int, canRefresh: bool, reply: Reply, commits: bool)
      returns (result: LoadResult, ghost events: seq<Event>)
      requires Valid() && state.At(r).Idle? && Fresh(state, Refresh(r, reply))
      modifies this
      ensures Valid() && state == Run(old(state), events) && now == old(now) && lockedBy == old(lockedBy)
      ensures result ==
        if old(tokenRecord).None? then Tokens(None)
        else if !canRefresh || old(tokenRecord).value.accessExpiresAt == 0
          || old(tokenRecord).value.accessExpiresAt >= now + 15 * 60 then Tokens(old(tokenRecord))
        else if old(lockedBy).Some? then TokenRefreshError
        else match reply
          case NotNeeded => Tokens(old(tokenRecord))
          case Raised(_) => CallbackError
          case Issued(issued) => if commits then Tokens(Some(issued)) else CommitError
      ensures result.Tokens? ==> state.At(r).Done? && state.At(r).result == result.row && result.row == tokenRecord
      ensures !result.Tokens? ==> state.At(r).Failed? && tokenRecord == old(tokenRecord)
      ensures tokenRecord != old(tokenRecord) ==>
        && old(tokenRecord).Some? && NeedsRefresh(old(tokenRecord).value, now)
        && canRefresh && old(lockedBy).None? && tokenRecord.Some? && reply == Issued(tokenRecord.value)
    {
      ghost var before := state;
      events := [];
      // The fast path reads the row without a lock.
      events := Happens(events, FastRead(r, canRefresh), before);
      if tokenRecord.None? {
        return Tokens(None), events;
      }
      if !NeedsRefresh(tokenRecord.value, now) || !canRefresh {
        return Tokens(tokenRecord), events;
      }
      // The slow path waits for the row lock, and gives up if another request keeps it.
      if lockedBy.Some? {
        events := Happens(events, LockTimeout(r), before);
        return TokenRefreshError, events;
      }
      lockedBy := Some(r);
      events := Happens(events, Acquire(r), before);
      ReadsAddNoToken(before, FastRead(r, canRefresh), Refresh(r, reply));
      ReadsAddNoToken(Step(before, FastRead(r, canRefresh)), Acquire(r), Refresh(r, reply));
      result, events := RefreshLocked(r, reply, commits, before, events);
    }

    /** The end of the transaction: the row with the new tokens is committed, or stays as it was. */
    method WriteBack(r: int, issued: Row, commits: bool, ghost before: State, ghost events: seq<Event>)
      returns (result: LoadResult, ghost events': seq<Event>)
      requires Inv(before) && Inv(state) && state == Run(before, events)
      requires state.now == now && state.Current() == tokenRecord && state.lock == Some(r) && lockedBy.None?
      requires state.At(r).Redeemed? && state.At(r).issued == issued
      modifies this`state, this`tokenRecord
      ensures Valid() && state == Run(before, events')
      ensures result == if commits then Tokens(Some(issued)) else CommitError
      ensures tokenRecord == if commits then Some(issued) else old(tokenRecord)
      ensures if commits then state.At(r).Done? && state.At(r).result == Some(issued) else state.At(r).Failed?
    {
      if commits {
        tokenRecord := Some(issued);
        events' := Happens(events, Commit(r), before);
        result := Tokens(tokenRecord);
      } else {
        events' := Happens(events, CommitFails(r), before);
        result := CommitError;
      }
    }

    /** store_tokens: write the tokens of a login over the row, or insert the row. */
    method StoreTokens(row: Row)
      requires Valid() && lockedBy.None? && Fresh(state, AuthTokens.StoreTokens(row))
      modifies this
      ensures Valid() && state == Step(old(state), AuthTokens.StoreTokens(row))
      ensures tokenRecord == Some(row) && now == old(now) && lockedBy.None?
    {
      StepKeepsInv(state, AuthTokens.StoreTokens(row));
      state := Step(state, AuthTokens.StoreTokens(row));
      tokenRecord := Some(row);
    }
  }
}

/**
 The OAuth device flow: polling with slow-down (section 3.5 of RFC 8628), and the life of a device
 code between its creation and the token.

 Times are exact seconds.  A poll reads the clock when it is checked and again when it is recorded;
 polls of one code follow one another.
 */
module DeviceFlow {
  import opened Wrappers

  const FIRST_INTERVAL := 5
  const INTERVAL_STEP := 5
  const MAX_INTERVAL := 60

  datatype Status = Pending | Authorized | Denied

  /** A row of device_codes, without the device code that is its key. */
  datatype Code = Code(
    userCode: string, status: Status, owner: Option<string>, expires: real, lastPoll: Option<real>, interval: int)

  /** The row of a device code, and whether the API key made for it exists. */
  datatype State = State(code: Code, hasKey: bool)

  /** What the routes are asked to do, and when; `keyCreated` says whether create_api_key succeeds. */
  datatype Event =
    | Poll(checked: real, recorded: real)
    | Verify(user: string, at: real, keyCreated: bool)
    | Deny(at: real)

  datatype Answer =
    | SlowDown(interval: int) | ExpiredToken | AccessDenied | AuthorizationPending | Token | ServerError
    | Linked | AlreadyProcessed | KeyFailed(reverted: bool) | DenyResult(success: bool)

  // ----- the operations on one code -----

  function Min(a: int, b: int): int {
    if a < b then a else b
  }

  predicate IsExpired(c: Code, now: real) {
    now > c.expires
  }

  predicate IsPending(c: Code, now: real) {
    c.status == Pending && !IsExpired(c, now)
  }

  predicate TooFast(c: Code, now: real) {
    c.lastPoll.Some? && now - c.lastPoll.value < c.interval as real
  }

  function Recorded(c: Code, now: real, tooFast: bool): Code {
    c.(lastPoll := Some(now), interval := if tooFast then Min(c.interval + INTERVAL_STEP, MAX_INTERVAL) else c.interval)
  }

  function TokenAnswer(s: State, now: real): Answer {
    if IsExpired(s.code, now) then ExpiredToken
    else match s.code.status
      case Denied => AccessDenied
      case Pending => AuthorizationPending
      case Authorized => if s.hasKey then Token else ServerError
  }

  function Authorize(c: Code, user: string, now: real): (bool, Code) {
    if IsPending(c, now) then (true, c.(status := Authorized, owner := Some(user))) else (false, c)
  }

  function DenyCode(c: Code, now: real): (bool, Code) {
    if IsPending(c, now) then (true, c.(status := Denied)) else (false, c)
  }

  /** One request: /token, /verify-authenticated, or a denial at the store. */
  function Step(s: State, e: Event): (Answer, State) {
    match e
    case Poll(checked, recorded) =>
      var tooFast := TooFast(s.code, checked);
      (if tooFast then SlowDown(Min(s.code.interval + INTERVAL_STEP, MAX_INTERVAL)) else TokenAnswer(s, recorded),
       s.(code := Recorded(s.code, recorded, tooFast)))
    case Verify(user, at, keyCreated) =>
      var (success, code) := Authorize(s.code, user, at);
      if !success then (AlreadyProcessed, s)
      else if keyCreated then (Linked, State(code, true))
      else
        var (reverted, code') := DenyCode(code, at);
        (KeyFailed(reverted), s.(code := code'))
    case Deny(at) =>
      var (success, code) := DenyCode(s.code, at);
      (DenyResult(success), s.(code := code))
  }

  function Run(s: State, events: seq<Event>): State
    decreases |events|
  {
    if events == [] then s else Run(Step(s, events[0]).1, events[1..])
  }

  // ----- the answers -----

  /**
   The answer to a poll, in the order of precedence: too soon after the last one, expired, denied,
   pending, or decided for the user, with a token if there is a key.  Every poll is put on record,
   and one that came too soon raises the interval by 5 seconds, up to 60.
   */
  lemma PollAnsweredExactly(s: State, checked: real, recorded: real)
    ensures var (answer, after) := Step(s, Poll(checked, recorded));
      var c := s.code;
      var tooFast := c.lastPoll.Some? && checked < c.lastPoll.value + c.interval as real;
      var inTime := !tooFast && recorded <= c.expires;
      && (answer.SlowDown? <==> tooFast)
      && (answer == ExpiredToken <==> !tooFast && recorded > c.expires)
      && (answer == AccessDenied <==> inTime && c.status == Denied)
      && (answer == AuthorizationPending <==> inTime && c.status == Pending)
      && (answer == Token <==> inTime && c.status == Authorized && s.hasKey)
      && (answer == ServerError <==> inTime && c.status == Authorized && !s.hasKey)
      && after == s.(code := c.(lastPoll := Some(recorded), interval := after.code.interval))
      && after.code.interval == (if !tooFast then c.interval else if c.interval <= 55 then c.interval + 5 else 60)
      && (tooFast ==> answer.interval == after.code.interval)
  {
  }

  /** A verification decides a pending code that has not expired, for that user, and no other code. */
  lemma VerifiedExactly(s: State, user: string, at: real, keyCreated: bool)
    ensures var (answer, after) := Step(s, Verify(user, at, keyCreated));
      var decides := s.code.status == Pending && at <= s.code.expires;
      && (answer == AlreadyProcessed <==> !decides)
      && (answer == Linked <==> decides && keyCreated)
      && (answer.KeyFailed? <==> decides && !keyCreated)
      && after == if decides then State(s.code.(status := Authorized, owner := Some(user)), s.hasKey || keyCreated) else s
  {
  }

  /** So does a denial, which leaves the code without an owner. */
  lemma DeniedExactly(s: State, at: real)
    ensures var (answer, after) := Step(s, Deny(at));
      var decides := s.code.status == Pending && at <= s.code.expires;
      answer == DenyResult(decides) && after == if decides then s.(code := s.code.(status := Denied)) else s
  {
  }

  // ----- the interval -----

  predicate IsSlowDown(s: State, e: Event) {
    Step(s, e).0.SlowDown?
  }

  function SlowDowns(s: State, events: seq<Event>): nat
    decreases |events|
  {
    if events == [] then 0
    else (if IsSlowDown(s, events[0]) then 1 else 0) + SlowDowns(Step(s, events[0]).1, events[1..])
  }

  /** The interval after k slow-downs. */
  function IntervalAfter(k: nat): int {
    if k < 11 then 5 + 5 * k else 60
  }

  /** Whatever happens in between, k slow-downs bring the interval to min(5 + 5k, 60), from wherever it was. */
  lemma {:induction false} IntervalLaw(s: State, events: seq<Event>, k: nat)
    requires s.code.interval == IntervalAfter(k)
    ensures Run(s, events).code.interval == IntervalAfter(k + SlowDowns(s, events))
    decreases |events|
  {
    if events != [] {
      var next := Step(s, events[0]).1;
      IntervalLaw(next, events[1..], if IsSlowDown(s, events[0]) then k + 1 else k);
    }
  }

  /** The slow-down that follows k others reports min(5 + 5(k + 1), 60), and that is what the client is then held to. */
  lemma ReportedLaw(s: State, events: seq<Event>, e: Event, k: nat)
    requires s.code.interval == IntervalAfter(k) && IsSlowDown(Run(s, events), e)
    ensures var (answer, after) := Step(Run(s, events), e);
      answer.interval == IntervalAfter(k + SlowDowns(s, events) + 1) == after.code.interval
  {
    IntervalLaw(s, events, k);
  }

  // ----- the rate of accepted polls -----

  function Begin(e: Event): real {
    match e
    case Poll(checked, _) => checked
    case Verify(_, at, _) => at
    case Deny(at) => at
  }

  function End(e: Event): real {
    match e
    case Poll(_, recorded) => recorded
    case Verify(_, at, _) => at
    case Deny(at) => at
  }

  /** The events happen one after the other, none before `now`. */
  predicate InOrder(events: seq<Event>, now: real)
    decreases |events|
  {
    events == [] || (now <= Begin(events[0]) <= End(events[0]) && InOrder(events[1..], End(events[0])))
  }

  /** When the polls that were not told to slow down were checked. */
  function AcceptedAt(s: State, events: seq<Event>): seq<real>
    decreases |events|
  {
    if events == [] then []
    else
      var later := AcceptedAt(Step(s, events[0]).1, events[1..]);
      if events[0].Poll? && !IsSlowDown(s, events[0]) then [events[0].checked] + later else later
  }

  /** The last poll on record was not later than `now`, and the interval is at least the first. */
  predicate Timed(s: State, now: real) {
    s.code.interval >= FIRST_INTERVAL && (s.code.lastPoll.Some? ==> s.code.lastPoll.value <= now)
  }

  /** No poll is accepted within the interval of a recorded one. */
  lemma {:induction false} AcceptedLater(s: State, events: seq<Event>, now: real, from: real)
    requires Timed(s, now) && InOrder(events, now) && s.code.lastPoll.Some? && from <= s.code.lastPoll.value
    ensures forall i :: 0 <= i < |AcceptedAt(s, events)| ==> AcceptedAt(s, events)[i] >= from + 5.0
    decreases |events|
  {
    if events != [] {
      var next := Step(s, events[0]).1;
      var end := End(events[0]);
      AcceptedLater(next, events[1..], end, from);
    }
  }

  /** Neighbours are at least the first interval apart. */
  predicate Spaced(times: seq<real>) {
    forall i, j :: 0 <= i < |times| && j == i + 1 && j < |times| ==> times[j] - times[i] >= 5.0
  }

  lemma {:induction false} AcceptedSpaced(s: State, events: seq<Event>, now: real)
    requires Timed(s, now) && InOrder(events, now)
    ensures Spaced(AcceptedAt(s, events))
    decreases |events|
  {
    if events != [] {
      var next := Step(s, events[0]).1;
      var end := End(events[0]);
      AcceptedSpaced(next, events[1..], end);
      if events[0].Poll? && !IsSlowDown(s, events[0]) {
        AcceptedLater(next, events[1..], end, events[0].checked);
      }
    }
  }

  lemma {:induction false} Spread(times: seq<real>, i: nat, j: nat)
    requires i <= j < |times| && Spaced(times)
    ensures times[j] - times[i] >= 5.0 * (j - i) as real
    decreases j - i
  {
    if i < j {
      Spread(times, i, j - 1);
    }
  }

  /** Any accepted polls that lie within t seconds number at most t / 5 + 1. */
  lemma AcceptedInWindow(s: State, events: seq<Event>, now: real, i: nat, j: nat, t: real)
    requires Timed(s, now) && InOrder(events, now) && i <= j < |AcceptedAt(s, events)|
    requires AcceptedAt(s, events)[j] - AcceptedAt(s, events)[i] <= t
    ensures (j - i + 1) as real <= t / 5.0 + 1.0
  {
    AcceptedSpaced(s, events, now);
    Spread(AcceptedAt(s, events), i, j);
  }

  // ----- the status -----

  /** Once decided, a code keeps its status and its owner; nothing decides it twice. */
  lemma {:induction false} DecidedForGood(s: State, events: seq<Event>)
    requires s.code.status != Pending
    ensures Run(s, events).code.status == s.code.status && Run(s, events).code.owner == s.code.owner
    ensures Run(s, events).hasKey == s.hasKey
    decreases |events|
  {
    if events != [] {
      DecidedForGood(Step(s, events[0]).1, events[1..]);
    }
  }

  predicate AuthorizedBy(events: seq<Event>, user: string, expires: real) {
    exists i :: 0 <= i < |events| && events[i].Verify? && events[i].user == user && events[i].at <= expires
  }

  /** A code belongs to a user only if that user verified it before it expired. */
  lemma {:induction false} OwnerVerified(s: State, events: seq<Event>)
    requires s.code.status == Pending && s.code.owner.None?
    ensures var c := Run(s, events).code;
      && (c.status == Authorized <==> c.owner.Some?)
      && (c.owner.Some? ==> AuthorizedBy(events, c.owner.value, s.code.expires))
    decreases |events|
  {
    if events != [] {
      var e, next := events[0], Step(s, events[0]).1;
      if next.code.status == Pending {
        OwnerVerified(next, events[1..]);
        var c := Run(s, events).code;
        if c.owner.Some? {
          var i :| 0 <= i < |events[1..]| && events[1..][i].Verify? && events[1..][i].user == c.owner.value && events[1..][i].at <= s.code.expires;
          assert events[i + 1] == events[1..][i];
        }
      } else {
        DecidedForGood(next, events[1..]);
        assert e.Verify? && next.code.status == Authorized ==> events[0].at <= s.code.expires;
      }
    }
  }

  /** The i-th event verifies the code in time, and its key is created. */
  predicate Links(s: State, events: seq<Event>, i: nat)
    requires i < |events|
  {
    events[i].Verify? && events[i].keyCreated && events[i].at <= s.code.expires
  }

  lemma {:induction false} KeyNeedsLink(s: State, events: seq<Event>)
    requires s.code.status == Pending && !s.hasKey && Run(s, events).hasKey
    ensures exists i: nat :: i < |events| && Links(s, events, i)
    decreases |events|
  {
    var next := Step(s, events[0]).1;
    if next.hasKey {
      assert Links(s, events, 0);
    } else {
      if next.code.status != Pending {
        DecidedForGood(next, events[1..]);
      }
      KeyNeedsLink(next, events[1..]);
      var i: nat :| i < |events[1..]| && Links(next, events[1..], i);
      assert Links(s, events, i + 1);
    }
  }

  lemma {:induction false} ExpiryStays(s: State, events: seq<Event>)
    ensures Run(s, events).code.expires == s.code.expires
    decreases |events|
  {
    if events != [] {
      ExpiryStays(Step(s, events[0]).1, events[1..]);
    }
  }

  /** A token is handed out only for a code that was verified in time, with its key, and has not expired. */
  lemma TokenNeedsLink(s: State, events: seq<Event>, e: Event)
    requires s.code.status == Pending && !s.hasKey && Step(Run(s, events), e).0 == Token
    ensures e.Poll? && e.recorded <= s.code.expires && exists i: nat :: i < |events| && Links(s, events, i)
  {
    KeyNeedsLink(s, events);
    ExpiryStays(s, events);
  }

  /**
   What a decision comes to: whatever happens afterwards, a poll that is not too fast is answered by
   it, with a token exactly if the code was authorized and has its key, until the code expires.
   */
  lemma DecisionAnswersPolls(s: State, events: seq<Event>, checked: real, recorded: real)
    requires s.code.status != Pending
    ensures var answer := Step(Run(s, events), Poll(checked, recorded)).0;
      answer.SlowDown?
      || answer == if recorded > s.code.expires then ExpiredToken
                   else if s.code.status == Denied then AccessDenied
                   else if s.hasKey then Token else ServerError
  {
    DecidedForGood(s, events);
    ExpiryStays(s, events);
    PollAnsweredExactly(Run(s, events), checked, recorded);
  }

  /** A user who verifies in time, and whose key is created, gets the token: TokenNeedsLink the other way round. */
  lemma LinkYieldsToken(s: State, user: string, at: real, events: seq<Event>, checked: real, recorded: real)
    requires s.code.status == Pending && at <= s.code.expires && recorded <= s.code.expires
    ensures var linked := Step(s, Verify(user, at, true)).1;
      var answer := Step(Run(linked, events), Poll(checked, recorded)).0;
      answer.SlowDown? || answer == Token
  {
    VerifiedExactly(s, user, at, true);
    DecisionAnswersPolls(Step(s, Verify(user, at, true)).1, events, checked, recorded);
  }

  /**
   A verification whose key cannot be created is final.  Reverting it is refused, the code stays
   authorized, and whatever is tried afterwards it never yields a token.
   */
  lemma KeyFailureIsFinal(s: State, user: string, at: real, events: seq<Event>, e: Event)
    requires IsPending(s.code, at) && !s.hasKey
    ensures var (answer, after) := Step(s, Verify(user, at, false));
      && answer == KeyFailed(false)
      && Run(after, events).code.status == Authorized && Run(after, events).code.owner == Some(user)
      && var later := Step(Run(after, events), e).0;
         later.SlowDown? || later in {ExpiredToken, ServerError, AlreadyProcessed, DenyResult(false)}
  {
    DecidedForGood(Step(s, Verify(user, at, false)).1, events);
  }

  /** Through the routes alone no code is ever denied. */
  lemma {:induction false} RoutesNeverDeny(s: State, events: seq<Event>)
    requires s.code.status != Denied && forall i :: 0 <= i < |events| ==> !events[i].Deny?
    ensures Run(s, events).code.status != Denied
    decreases |events|
  {
    if events != [] {
      assert !events[0].Deny?;
      RoutesNeverDeny(Step(s, events[0]).1, events[1..]);
    }
  }

  // ----- the entry and its store -----

  /** A loaded row, whose methods assign its fields. */
  class DeviceCode {
    var code: Code

    constructor (code: Code)
      ensures this.code == code
    {
      this.code := code;
    }

    /** check_rate_limit: the interval it reports is the one update_poll_time would store. */
    method CheckRateLimit(now: real) returns (tooFast: bool, interval: int)
      ensures tooFast == TooFast(code, now)
      ensures forall later :: interval == Recorded(code, later, tooFast).interval
    {
      if code.lastPoll.None? {
        return false, code.interval;
      }
      if now - code.lastPoll.value < code.interval as real {
        return true, Min(code.interval + INTERVAL_STEP, MAX_INTERVAL);
      }
      return false, code.interval;
    }

    method UpdatePollTime(now: real, increaseInterval: bool)
      modifies this
      ensures code == Recorded(old(code), now, increaseInterval)
    {
      code := code.(lastPoll := Some(now));
      if increaseInterval {
        code := code.(interval := Min(code.interval + INTERVAL_STEP, MAX_INTERVAL));
      }
    }
  }

  class DeviceCodeStore {
    var codes: map<string, Code>

    /** The unique constraint on the user codes; the device codes are the keys of the table. */
    predicate Unique()
      reads this
    {
      forall d, d' :: d in codes && d' in codes && codes[d].userCode == codes[d'].userCode ==> d == d'
    }

    predicate Taken(deviceCode: string, userCode: string)
      reads this
    {
      deviceCode in codes || exists d :: d in codes && codes[d].userCode == userCode
    }

    constructor ()
      ensures codes == map[] && Unique()
    {
      codes := map[];
    }

    /** create_device_code: the first attempt whose codes are both unused is stored, and no other. */
    method CreateDeviceCode(attempts: seq<(string, string)>, expires: real) returns (created: Option<string>)
      requires Unique()
      modifies this
      ensures Unique()
      ensures created.None? <==> forall i :: 0 <= i < |attempts| ==> old(Taken(attempts[i].0, attempts[i].1))
      ensures created.None? ==> codes == old(codes)
      ensures created.Some? ==>
                exists i :: (
                  && 0 <= i < |attempts| && created.value == attempts[i].0
                  && (forall j :: 0 <= j < i ==> old(Taken(attempts[j].0, attempts[j].1)))
                  && !old(Taken(attempts[i].0, attempts[i].1))
                  && codes == old(codes)[attempts[i].0 := Code(attempts[i].1, Pending, None, expires, None, 5)])
    {
      var i := 0;
      while i < |attempts|
        invariant 0 <= i <= |attempts| && codes == old(codes)
        invariant forall j :: 0 <= j < i ==> old(Taken(attempts[j].0, attempts[j].1))
      {
        var (deviceCode, userCode) := attempts[i];
        if !(deviceCode in codes || exists d :: d in codes && codes[d].userCode == userCode) {
          codes := codes[deviceCode := Code(userCode, Pending, None, expires, None, FIRST_INTERVAL)];
          return Some(deviceCode);
        }
        i := i + 1;
      }
      return None;
    }

    /** authorize_device_code, for the entry the user code was found in. */
    method AuthorizeDeviceCode(deviceCode: string, user: string, now: real) returns (success: bool)
      requires Unique()
      modifies this
      ensures Unique()
      ensures deviceCode !in old(codes) ==> !success && codes == old(codes)
      ensures deviceCode in old(codes) ==>
                success == Authorize(old(codes)[deviceCode], user, now).0
                && codes == old(codes)[deviceCode := Authorize(old(codes)[deviceCode], user, now).1]
    {
      if deviceCode !in codes {
        return false;
      }
      if codes[deviceCode].status != Pending || now > codes[deviceCode].expires {
        assert codes == codes[deviceCode := codes[deviceCode]];
        return false;
      }
      codes := codes[deviceCode := codes[deviceCode].(status := Authorized, owner := Some(user))];
      return true;
    }

    /** deny_device_code. */
    method DenyDeviceCode(deviceCode: string, now: real) returns (success: bool)
      requires Unique()
      modifies this
      ensures Unique()
      ensures deviceCode !in old(codes) ==> !success && codes == old(codes)
      ensures deviceCode in old(codes) ==>
                success == DenyCode(old(codes)[deviceCode], now).0
                && codes == old(codes)[deviceCode := DenyCode(old(codes)[deviceCode], now).1]
    {
      if deviceCode !in codes {
        return false;
      }
      if codes[deviceCode].status != Pending || now > codes[deviceCode].expires {
        assert codes == codes[deviceCode := codes[deviceCode]];
        return false;
      }
      codes := codes[deviceCode := codes[deviceCode].(status := Denied)];
      return true;
    }

    /** A poll at /token: check, record, answer. */
    method DeviceToken(deviceCode: string, hasKey: bool, checked: real, recorded: real) returns (answer: Option<Answer>)
      requires Unique() && checked <= recorded
      modifies this
      ensures Unique()
      ensures deviceCode !in old(codes) ==> answer.None? && codes == old(codes)
      ensures deviceCode in old(codes) ==>
                var (a, s) := Step(State(old(codes)[deviceCode], hasKey), Poll(checked, recorded));
                answer == Some(a) && codes == old(codes)[deviceCode := s.code]
    {
      if deviceCode !in codes {
        return None;
      }
      var entry := new DeviceCode(codes[deviceCode]);
      var tooFast, interval := entry.CheckRateLimit(checked);
      entry.UpdatePollTime(recorded, tooFast);
      if tooFast {
        answer := Some(SlowDown(interval));
      } else {
        answer := Some(TokenAnswer(State(codes[deviceCode], hasKey), recorded));
      }
      codes := codes[deviceCode := entry.code];
      assert Recorded(old(codes)[deviceCode], recorded, tooFast) == codes[deviceCode];
      assert tooFast ==> interval == Recorded(old(codes)[deviceCode], 0.0, tooFast).interval;
    }
  }
}

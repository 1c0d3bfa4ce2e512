/**
 Loading a user who may have to be migrated first: get_user_by_id guards the migration of a user with
 a lock in Redis that expires after 30 seconds and carries no owner.

 Any number of callers interleave, all for one user; every step is atomic.  Times are seconds.
 */
module UserCreation {
  import opened Wrappers

  const LOCK_TTL: nat := 30

  /** Where a caller stands; inside the lock it remembers when it was taken. */
  datatype Pc =
    | Loading
    | WaitingForLock
    | Reloading(since: nat)
    | Migrating(since: nat)
    | Releasing(since: nat, found: bool)
    | Returned(found: bool)

  /**
   `lock` is the expiry of the key, `user` whether the user's row exists; `started` and `committed`
   count the migrations.
   */
  datatype State = State(
    now: nat, lock: Option<nat>, user: bool, callers: map<int, Pc>, started: nat, committed: nat)

  datatype Event =
    | Call(c: int)
    | Load(c: int)
    | TryLock(c: int)
    | Reload(c: int, migratable: bool)
    | Finish(c: int, succeeds: bool)
    | Release(c: int)
    | Tick(seconds: nat)

  predicate Held(s: State) {
    s.lock.Some? && s.now < s.lock.value
  }

  predicate Inside(pc: Pc) {
    pc.Reloading? || pc.Migrating? || pc.Releasing?
  }

  function Move(s: State, c: int, pc: Pc): State {
    s.(callers := s.callers[c := pc])
  }

  /** An event that does not fit where its caller stands does nothing. */
  function Step(s: State, e: Event): State {
    match e
    case Call(c) => if c in s.callers then s else Move(s, c, Loading)
    case Load(c) =>
      if c !in s.callers || !s.callers[c].Loading? then s
      else Move(s, c, if s.user then Returned(true) else WaitingForLock)
    case TryLock(c) =>
      if c !in s.callers || !s.callers[c].WaitingForLock? || Held(s) then s
      else Move(s, c, Reloading(s.now)).(lock := Some(s.now + LOCK_TTL))
    case Reload(c, migratable) =>
      if c !in s.callers || !s.callers[c].Reloading? then s
      else if s.user || !migratable then Move(s, c, Releasing(s.callers[c].since, s.user))
      else Move(s, c, Migrating(s.callers[c].since)).(started := s.started + 1)
    case Finish(c, succeeds) =>
      if c !in s.callers || !s.callers[c].Migrating? then s
      // The insert of the user's row fails when there is one already.
      else if !succeeds || s.user then Move(s, c, Releasing(s.callers[c].since, false))
      else Move(s, c, Releasing(s.callers[c].since, true)).(user := true, committed := s.committed + 1)
    case Release(c) =>
      if c !in s.callers || !s.callers[c].Releasing? then s
      else Move(s, c, Returned(s.callers[c].found)).(lock := None)
    case Tick(seconds) => s.(now := s.now + seconds)
  }

  // ----- exclusion -----

  predicate IsInside(s: State, c: int) {
    c in s.callers && Inside(s.callers[c])
  }

  /** Nobody has been inside for as long as the lock lasts. */
  ghost predicate Prompt(s: State) {
    forall c :: IsInside(s, c) ==> s.now < s.callers[c].since + LOCK_TTL
  }

  ghost predicate Exclusive(s: State) {
    forall c, d :: IsInside(s, c) && IsInside(s, d) ==> c == d
  }

  /** Whoever is inside owns the key that is set. */
  ghost predicate Locked(s: State) {
    Exclusive(s) && forall c :: IsInside(s, c) ==> s.callers[c].since <= s.now && s.lock == Some(s.callers[c].since + LOCK_TTL)
  }

  /** Only taking the free lock leads inside, and no step changes when somebody took it. */
  lemma WhoIsInside(s: State, e: Event, c: int)
    requires IsInside(Step(s, e), c)
    ensures IsInside(s, c) || (e == TryLock(c) && !Held(s))
    ensures IsInside(s, c) ==> Step(s, e).callers[c].since == s.callers[c].since
  {
  }

  lemma StepKeepsLocked(s: State, e: Event)
    requires Locked(s) && Prompt(s)
    ensures Locked(Step(s, e))
  {
    var s' := Step(s, e);
    forall c, d | IsInside(s', c) && IsInside(s', d) ensures c == d {
      WhoIsInside(s, e, c);
      WhoIsInside(s, e, d);
      assert IsInside(s, c) ==> Held(s);
      assert IsInside(s, d) ==> Held(s);
    }
    forall c | IsInside(s', c) ensures s'.callers[c].since <= s'.now && s'.lock == Some(s'.callers[c].since + LOCK_TTL) {
      WhoIsInside(s, e, c);
      if IsInside(s, c) {
        assert e.Release? && IsInside(s, e.c) ==> e.c == c;
      }
    }
  }

  /** A second caller gets in exactly when the one inside has outlasted its lock. */
  lemma SecondEntersExactly(s: State, c: int, d: int)
    requires Locked(s) && IsInside(s, c) && d in s.callers && s.callers[d].WaitingForLock?
    ensures IsInside(Step(s, TryLock(d)), d) <==> s.now >= s.callers[c].since + LOCK_TTL
  {
  }

  // ----- runs -----

  function Run(s: State, events: seq<Event>): State
    decreases |events|
  {
    if events == [] then s else Run(Step(s, events[0]), events[1..])
  }

  lemma {:induction false} RunJoin(s: State, a: seq<Event>, b: seq<Event>)
    ensures Run(s, a + b) == Run(Run(s, a), b)
    decreases |a|
  {
    if a == [] {
      assert a + b == b;
    } else {
      assert (a + b)[0] == a[0] && (a + b)[1..] == a[1..] + b;
      RunJoin(Step(s, a[0]), a[1..], b);
    }
  }

  lemma RunFour(s: State, a: Event, b: Event, c: Event, d: Event)
    ensures Run(s, [a, b, c, d]) == Step(Step(Step(Step(s, a), b), c), d)
  {
    var s3 := Step(Step(Step(s, a), b), c);
    assert [a, b, c, d][1..] == [b, c, d] && [b, c, d][1..] == [c, d] && [c, d][1..] == [d] && [d][1..] == [];
    assert Run(Step(s3, d), []) == Step(s3, d);
    assert Run(s3, [d]) == Step(s3, d);
    assert Run(Step(Step(s, a), b), [c, d]) == Step(s3, d);
    assert Run(Step(s, a), [b, c, d]) == Step(s3, d);
  }

  /** A caller from its call to its return, with nobody else interfering. */
  function WholeCall(c: int, migratable: bool, succeeds: bool): seq<Event> {
    [Call(c), Load(c), TryLock(c), Reload(c, migratable)] + [Finish(c, succeeds), Release(c)]
  }

  lemma TwoSteps(s: State, a: Event, b: Event)
    ensures Run(s, [a, b]) == Step(Step(s, a), b)
  {
    assert [a, b][1..] == [b] && [b][1..] == [];
    assert Run(Step(Step(s, a), b), []) == Step(Step(s, a), b);
  }

  /**
   An undisturbed call returns a user exactly if there is one or one can be migrated; it begins a
   migration exactly if there is none and one can be, and leaves no lock of its own behind.
   */
  lemma UndisturbedExactly(s: State, c: int, migratable: bool, succeeds: bool)
    requires c !in s.callers && !Held(s)
    ensures var end := Run(s, WholeCall(c, migratable, succeeds));
      && end.callers == s.callers[c := Returned(s.user || (migratable && succeeds))]
      && end.user == (s.user || (migratable && succeeds))
      && end.started == s.started + (if !s.user && migratable then 1 else 0)
      && end.committed == s.committed + (if !s.user && migratable && succeeds then 1 else 0)
      && (if s.user then end.lock == s.lock else end.lock.None?)
  {
    RunJoin(s, [Call(c), Load(c), TryLock(c), Reload(c, migratable)], [Finish(c, succeeds), Release(c)]);
    RunFour(s, Call(c), Load(c), TryLock(c), Reload(c, migratable));
    TwoSteps(Run(s, [Call(c), Load(c), TryLock(c), Reload(c, migratable)]), Finish(c, succeeds), Release(c));
    var looked := s.callers[c := Loading];
    assert looked[c := Returned(true)] == s.callers[c := Returned(true)];
  }

  /** Whoever gets the lock looks again: a user who has been created meanwhile is found, and no migration begins. */
  lemma SecondLookFinds(s: State, c: int, migratable: bool)
    requires c in s.callers && s.callers[c].WaitingForLock? && !Held(s) && s.user
    ensures var inside := Run(s, [TryLock(c), Reload(c, migratable)]);
      && inside.started == s.started && inside.user
      && c in Step(inside, Release(c)).callers && Step(inside, Release(c)).callers[c] == Returned(true)
  {
    TwoSteps(s, TryLock(c), Reload(c, migratable));
  }

  /** A migration that finishes when there is a user already fails, and one that fails reports none. */
  lemma FinishesExactly(s: State, c: int, succeeds: bool)
    requires c in s.callers && s.callers[c].Migrating?
    ensures var done := Step(Step(s, Finish(c, succeeds)), Release(c));
      && done.callers == s.callers[c := Returned(succeeds && !s.user)]
      && done.user == (s.user || succeeds) && done.lock.None?
      && done.committed == s.committed + if succeeds && !s.user then 1 else 0
  {
  }

  /** A caller takes the lock and begins to migrate the user. */
  function Enters(c: int): seq<Event> {
    [Call(c), Load(c), TryLock(c), Reload(c, true)]
  }

  lemma EntersWhenFree(s: State, c: int)
    requires c !in s.callers && !s.user && !Held(s)
    ensures Run(s, Enters(c)) == s.(callers := s.callers[c := Migrating(s.now)], lock := Some(s.now + LOCK_TTL), started := s.started + 1)
  {
    RunFour(s, Call(c), Load(c), TryLock(c), Reload(c, true));
    assert s.callers[c := Loading][c := WaitingForLock][c := Reloading(s.now)][c := Migrating(s.now)] == s.callers[c := Migrating(s.now)];
  }

  /** The first caller outlasts its lock; its release takes the lock of the second. */
  const LATE_RELEASE := Enters(1) + [Tick(LOCK_TTL)] + Enters(2) + [Finish(1, false), Release(1)] + Enters(3)

  const EMPTY := State(0, None, false, map[], 0, 0)

  lemma FirstOutlasts()
    ensures Run(EMPTY, Enters(1) + [Tick(LOCK_TTL)]) == State(30, Some(30), false, map[1 := Migrating(0)], 1, 0)
  {
    EntersWhenFree(EMPTY, 1);
    RunJoin(EMPTY, Enters(1), [Tick(LOCK_TTL)]);
    assert [Tick(LOCK_TTL)][1..] == [];
    var s := State(30, Some(30), false, map[1 := Migrating(0)], 1, 0);
    assert Run(s, []) == s;
  }

  lemma FirstReleases(s: State)
    requires s == State(30, Some(60), false, map[1 := Migrating(0), 2 := Migrating(30)], 2, 0)
    ensures Run(s, [Finish(1, false), Release(1)]) == State(30, None, false, map[1 := Returned(false), 2 := Migrating(30)], 2, 0)
  {
    var s1 := Step(s, Finish(1, false));
    var s2 := Step(s1, Release(1));
    assert [Finish(1, false), Release(1)][1..] == [Release(1)] && [Release(1)][1..] == [];
    assert Run(s2, []) == s2 && Run(s1, [Release(1)]) == s2;
    assert s2.callers == map[1 := Returned(false), 2 := Migrating(30)];
  }

  /**
   A late release takes the lock of the next caller with it: in this run from the empty state the
   third caller gets in beside the second, which has not outlasted its lock, and two migrate at once.
   */
  lemma LateReleaseLetsThirdIn()
    ensures var end := Run(EMPTY, LATE_RELEASE);
      && 2 in end.callers && end.callers[2] == Migrating(end.now) && 3 in end.callers && end.callers[3] == Migrating(end.now)
      && end.started == 3
  {
    var a := Enters(1) + [Tick(LOCK_TTL)];
    var release := [Finish(1, false), Release(1)];
    var s1 := State(30, Some(30), false, map[1 := Migrating(0)], 1, 0);
    var s2 := State(30, Some(60), false, map[1 := Migrating(0), 2 := Migrating(30)], 2, 0);
    var s3 := State(30, None, false, map[1 := Returned(false), 2 := Migrating(30)], 2, 0);
    FirstOutlasts();
    EntersWhenFree(s1, 2);
    assert map[1 := Migrating(0)][2 := Migrating(30)] == s2.callers;
    RunJoin(EMPTY, a, Enters(2));
    FirstReleases(s2);
    RunJoin(EMPTY, a + Enters(2), release);
    EntersWhenFree(s3, 3);
    RunJoin(EMPTY, a + Enters(2) + release, Enters(3));
  }

  /** Nobody ever stays inside for as long as the lock lasts. */
  ghost predicate AlwaysPrompt(s: State, events: seq<Event>)
    decreases |events|
  {
    Prompt(s) && (events == [] || AlwaysPrompt(Step(s, events[0]), events[1..]))
  }

  /** What is known of a state however late the callers are. */
  predicate Counted(s: State) {
    && (s.user ==> s.committed <= 1) && (!s.user ==> s.committed == 0)
    && (forall c :: c in s.callers && (s.callers[c].Returned? || s.callers[c].Releasing?) && s.callers[c].found ==> s.user)
  }

  /** However late the callers are, the user is migrated at most once, and nobody reports a user who is not there. */
  lemma {:induction false} MigratedAtMostOnce(s: State, events: seq<Event>)
    requires Counted(s)
    ensures Counted(Run(s, events)) && (s.user ==> Run(s, events).user && Run(s, events).committed == s.committed)
    decreases |events|
  {
    if events != [] {
      var next := Step(s, events[0]);
      assert Counted(next);
      MigratedAtMostOnce(next, events[1..]);
    }
  }

  /** While nobody outlasts the lock, no two callers are ever inside. */
  lemma {:induction false} RunsExclude(s: State, events: seq<Event>)
    requires Locked(s) && AlwaysPrompt(s, events)
    ensures Locked(Run(s, events))
    decreases |events|
  {
    if events != [] {
      StepKeepsLocked(s, events[0]);
      RunsExclude(Step(s, events[0]), events[1..]);
    }
  }

  predicate AllSucceed(events: seq<Event>) {
    forall i :: 0 <= i < |events| && events[i].Finish? ==> events[i].succeeds
  }

  /** Migrations begun and not finished. */
  predicate NobodyMigrates(s: State) {
    forall c :: c in s.callers ==> !s.callers[c].Migrating?
  }

  /** The migrations begun are the one committed and the one going on. */
  predicate OneMigration(s: State) {
    && s.started <= 1
    && (s.user ==> NobodyMigrates(s))
    && (!s.user && NobodyMigrates(s) ==> s.started == 0)
  }

  lemma OthersStay(s: State, e: Event, c: int)
    requires e.Tick? || e.c != c
    ensures c in Step(s, e).callers <==> c in s.callers
    ensures c in s.callers ==> Step(s, e).callers[c] == s.callers[c]
  {
  }

  /** Whoever is inside is the only one who can be migrating. */
  lemma OnlyOneMigrates(s: State, c: int)
    requires Locked(s) && IsInside(s, c)
    ensures forall d :: d in s.callers && s.callers[d].Migrating? ==> d == c
  {
    assert forall d :: d in s.callers && s.callers[d].Migrating? ==> IsInside(s, d);
  }

  lemma StepKeepsOneMigration(s: State, e: Event)
    requires Locked(s) && OneMigration(s) && (e.Finish? ==> e.succeeds)
    ensures OneMigration(Step(s, e))
  {
    var s' := Step(s, e);
    if e.Tick? {
      assert s'.callers == s.callers;
      return;
    }
    forall d | d in s.callers && d != e.c ensures d in s'.callers && s'.callers[d] == s.callers[d] {
      OthersStay(s, e, d);
    }
    forall d | d in s'.callers && d != e.c ensures d in s.callers {
      OthersStay(s, e, d);
    }
    if IsInside(s, e.c) {
      OnlyOneMigrates(s, e.c);
    }
    if !s.user && !NobodyMigrates(s) {
      var m :| m in s.callers && s.callers[m].Migrating?;
      assert m != e.c || !e.Finish? ==> s'.callers[m].Migrating?;
      OnlyOneMigrates(s, m);
    }
    assert s'.started > s.started ==> s'.callers[e.c].Migrating?;
  }

  /** Of any number of callers that are prompt, at most one starts a migration, and none again after it has succeeded. */
  lemma {:induction false} OneCallerMigrates(s: State, events: seq<Event>)
    requires Locked(s) && AlwaysPrompt(s, events) && OneMigration(s) && AllSucceed(events)
    ensures OneMigration(Run(s, events))
    decreases |events|
  {
    if events != [] {
      assert events[0].Finish? ==> events[0].succeeds;
      StepKeepsLocked(s, events[0]);
      StepKeepsOneMigration(s, events[0]);
      assert AllSucceed(events[1..]);
      OneCallerMigrates(Step(s, events[0]), events[1..]);
    }
  }

  // ----- the lock -----

  class CreationLock {
    var now: nat
    var lock: Option<nat>

    constructor ()
      ensures now == 0 && lock == None
    {
      now, lock := 0, None;
    }

    /** _acquire_user_creation_lock: SET key 1 NX EX 30. */
    method Acquire(available: bool) returns (acquired: bool)
      modifies this
      ensures now == old(now)
      ensures acquired <==> !available || !(old(lock).Some? && old(now) < old(lock).value)
      ensures lock == if acquired && available then Some(now + LOCK_TTL) else old(lock)
    {
      if !available {
        return true;
      }
      acquired := lock.None? || lock.value <= now;
      if acquired {
        lock := Some(now + LOCK_TTL);
      }
    }

    /** _release_user_creation_lock: DEL key, whoever set it. */
    method Release(available: bool) returns (released: bool)
      modifies this
      ensures now == old(now)
      ensures released <==> !available || (old(lock).Some? && old(now) < old(lock).value)
      ensures lock == if available then None else old(lock)
    {
      if !available {
        return true;
      }
      released := lock.Some? && now < lock.value;
      lock := None;
    }
  }
}

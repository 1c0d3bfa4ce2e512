/**
 Creating an organization with its owner: a saga that sets up a team in LiteLLM, builds the rows,
 persists them in one commit, and deletes the team again when something raises.

 The persisting step cleans up after itself and raises a database error; the outer handler lets such
 an error pass and cleans up after every other one.  Neither catches a cancellation.
 */
module OrgCreation {
  import opened Wrappers
  import opened OrgTables

  datatype Error =
    | NameExists
    | IntegrationError
    | OrgDatabaseError(cleanupFailed: bool)
    | OtherError
    | Cancelled

  datatype Outcome = Ok | Raises(error: Error)

  /** The set-up in LiteLLM is done, or breaks off before or after it created the team. */
  datatype SetUp = Done | BreaksOff(teamCreated: bool, cancelled: bool)

  /** How every call of the saga goes, if it is made. */
  datatype Calls = Calls(
    nameLookup: Outcome,
    setUp: SetUp,
    createEntity: Outcome,
    applySettings: Outcome,
    ownerRole: Outcome,
    memberEntity: Outcome,
    commit: Outcome,
    refresh: Outcome,
    deleteTeam: Call)

  datatype Effect = TeamCreated | OrgCommitted | TeamDeletion

  /** The world, and what has been done to it, in order. */
  datatype Saga = Saga(world: World, log: seq<Effect>)

  function Logged(s: Saga, world: World, effect: Effect): Saga {
    Saga(world, s.log + [effect])
  }

  function WithTeam(s: Saga, o: Id): Saga {
    Logged(s, s.world.(teams := s.world.teams + {o}), TeamCreated)
  }

  function Persisted(db: Database, o: Id, name: string, owner: Id): Database {
    db.(orgs := db.orgs[o := name], members := db.members + {(o, owner)})
  }

  /** persist_org_with_owner; an owner that does not exist violates a foreign key. */
  function Persist(s: Saga, o: Id, name: string, owner: Id, calls: Calls): (Outcome, Saga) {
    if calls.commit.Raises? then (calls.commit, s)
    else if owner !in s.world.db.users then (Raises(OtherError), s)
    else (calls.refresh, Logged(s, s.world.(db := Persisted(s.world.db, o, name, owner)), OrgCommitted))
  }

  /** _handle_failure_with_cleanup: it always raises a database error. */
  function CleanUp(s: Saga, o: Id, deleteTeam: Call): (Outcome, Saga) {
    var teams := if deleteTeam == Fails then s.world.teams else s.world.teams - {o};
    (Raises(OrgDatabaseError(deleteTeam != Answers)), Logged(s, s.world.(teams := teams), TeamDeletion))
  }

  /** _persist_with_compensation. */
  function PersistWithCompensation(s: Saga, o: Id, name: string, owner: Id, calls: Calls): (Outcome, Saga) {
    var (outcome, s') := Persist(s, o, name, owner, calls);
    if outcome.Raises? && !outcome.error.Cancelled? then CleanUp(s', o, calls.deleteTeam) else (outcome, s')
  }

  /** Building the rows: the first call that raises ends it. */
  function BuildRows(calls: Calls): Outcome {
    if calls.createEntity.Raises? then calls.createEntity
    else if calls.applySettings.Raises? then calls.applySettings
    else if calls.ownerRole.Raises? then calls.ownerRole
    else calls.memberEntity
  }

  /** The body of the outer try. */
  function BuildAndPersist(s: Saga, o: Id, name: string, owner: Id, calls: Calls): (Outcome, Saga) {
    if BuildRows(calls).Raises? then (BuildRows(calls), s) else PersistWithCompensation(s, o, name, owner, calls)
  }

  /** The outer try with its handlers, once the team has been set up. */
  function Guarded(s: Saga, o: Id, name: string, owner: Id, calls: Calls): (Outcome, Saga) {
    var (outcome, s') := BuildAndPersist(s, o, name, owner, calls);
    if outcome.Ok? || outcome.error.OrgDatabaseError? || outcome.error.Cancelled? then (outcome, s')
    else CleanUp(s', o, calls.deleteTeam)
  }

  /** create_org_with_owner. */
  function Create(s: Saga, o: Id, name: string, owner: Id, calls: Calls): (Outcome, Saga) {
    if calls.nameLookup.Raises? then (calls.nameLookup, s)
    else if name in s.world.db.orgs.Values then (Raises(NameExists), s)
    else match calls.setUp
      case BreaksOff(teamCreated, cancelled) =>
        (Raises(if cancelled then Cancelled else IntegrationError), if teamCreated then WithTeam(s, o) else s)
      case Done => Guarded(WithTeam(s, o), o, name, owner, calls)
  }

  // ----- what the saga promises -----

  predicate Fresh(w: World, o: Id) {
    o !in w.db.orgs && o !in w.teams && forall m :: m in w.db.members ==> m.0 != o
  }

  /** The name is free and the team has been set up. */
  predicate SetUpDone(w: World, name: string, calls: Calls) {
    calls.nameLookup.Ok? && name !in w.db.orgs.Values && calls.setUp.Done?
  }

  predicate RowsBuilt(calls: Calls) {
    calls.createEntity.Ok? && calls.applySettings.Ok? && calls.ownerRole.Ok? && calls.memberEntity.Ok?
  }

  /** The rows are built and the commit goes through. */
  predicate Commits(w: World, name: string, owner: Id, calls: Calls) {
    SetUpDone(w, name, calls) && RowsBuilt(calls) && calls.commit.Ok? && owner in w.db.users
  }

  /** The i-th of the calls is the first to raise, and raises this. */
  predicate FirstRaises(outcomes: seq<Outcome>, i: nat, error: Error) {
    i < |outcomes| && outcomes[i] == Raises(error) && forall j :: 0 <= j < i ==> outcomes[j].Ok?
  }

  /** The error that ends the building of the rows. */
  predicate RowsRaise(calls: Calls, error: Error) {
    exists i :: 0 <= i < 4 && FirstRaises([calls.createEntity, calls.applySettings, calls.ownerRole, calls.memberEntity], i, error)
  }

  lemma BuildRowsExactly(calls: Calls)
    ensures BuildRows(calls).Ok? <==> RowsBuilt(calls)
    ensures forall error :: RowsRaise(calls, error) <==> BuildRows(calls) == Raises(error)
  {
    var rows := [calls.createEntity, calls.applySettings, calls.ownerRole, calls.memberEntity];
    if BuildRows(calls).Raises? {
      var error := BuildRows(calls).error;
      assert FirstRaises(rows, 0, error) || FirstRaises(rows, 1, error) || FirstRaises(rows, 2, error) || FirstRaises(rows, 3, error);
    }
  }

  /**
   The first call to raise after the set-up gets past both handlers: it was cancelled, or it raised
   a database error of its own while the rows were built.
   */
  predicate Escapes(db: Database, owner: Id, calls: Calls) {
    if !RowsBuilt(calls) then
      RowsRaise(calls, Cancelled) || RowsRaise(calls, OrgDatabaseError(true)) || RowsRaise(calls, OrgDatabaseError(false))
    else if calls.commit.Raises? then calls.commit.error.Cancelled?
    else owner in db.users && calls.refresh.Raises? && calls.refresh.error.Cancelled?
  }

  function Deletions(log: seq<Effect>): nat
    decreases |log|
  {
    if log == [] then 0 else Deletions(log[..|log| - 1]) + (if log[|log| - 1].TeamDeletion? then 1 else 0)
  }

  lemma LoggedDeletions(s: Saga, world: World, effect: Effect)
    ensures Deletions(Logged(s, world, effect).log) == Deletions(s.log) + if effect.TeamDeletion? then 1 else 0
  {
    assert (s.log + [effect])[..|s.log|] == s.log;
  }

  lemma PersistDeletions(s: Saga, o: Id, name: string, owner: Id, calls: Calls)
    ensures var (outcome, s') := PersistWithCompensation(s, o, name, owner, calls);
      && (outcome.Raises? ==> outcome.error.OrgDatabaseError? || outcome.error.Cancelled?)
      && Deletions(s'.log) == Deletions(s.log) + if outcome.Raises? && !outcome.error.Cancelled? then 1 else 0
  {
    var (outcome, s') := Persist(s, o, name, owner, calls);
    LoggedDeletions(s, s.world.(db := Persisted(s.world.db, o, name, owner)), OrgCommitted);
    LoggedDeletions(s', CleanUp(s', o, calls.deleteTeam).1.world, TeamDeletion);
  }

  lemma GuardedDeletions(s: Saga, o: Id, name: string, owner: Id, calls: Calls)
    ensures var (outcome, s') := Guarded(s, o, name, owner, calls);
      Deletions(s'.log) == Deletions(s.log) + if outcome.Raises? && !Escapes(s.world.db, owner, calls) then 1 else 0
  {
    BuildRowsExactly(calls);
    if BuildRows(calls).Raises? {
      LoggedDeletions(s, CleanUp(s, o, calls.deleteTeam).1.world, TeamDeletion);
    } else {
      PersistDeletions(s, o, name, owner, calls);
    }
  }

  /**
   However the calls go, the team is deleted at most once.  It is deleted exactly when the creation
   fails after the set-up, unless the failure gets past both handlers.
   */
  lemma CleansUpOnceExactly(s: Saga, o: Id, name: string, owner: Id, calls: Calls)
    ensures var (outcome, s') := Create(s, o, name, owner, calls);
      Deletions(s'.log) - Deletions(s.log)
      == if SetUpDone(s.world, name, calls) && outcome.Raises? && !Escapes(s.world.db, owner, calls) then 1 else 0
  {
    LoggedDeletions(s, WithTeam(s, o).world, TeamCreated);
    GuardedDeletions(WithTeam(s, o), o, name, owner, calls);
  }

  /** Creation succeeds exactly when no call raises; then organization, owner and team exist. */
  lemma CreatedExactly(s: Saga, o: Id, name: string, owner: Id, calls: Calls)
    ensures var (outcome, s') := Create(s, o, name, owner, calls);
      && (outcome.Ok? <==> Commits(s.world, name, owner, calls) && calls.refresh.Ok?)
      && (outcome.Ok? ==>
            && o in s'.world.db.orgs && s'.world.db.orgs[o] == name
            && (o, owner) in s'.world.db.members && o in s'.world.teams
            && s'.log == s.log + [TeamCreated, OrgCommitted])
  {
    assert s.log + [TeamCreated] + [OrgCommitted] == s.log + [TeamCreated, OrgCommitted];
  }

  /**
   Which error a failed creation raises: the lookup's own, that the name is taken, one for LiteLLM
   when the set-up breaks off, and after the set-up always a database error that says whether the
   clean-up failed too, unless the failure gets past both handlers.
   */
  lemma RaisesExactly(s: Saga, o: Id, name: string, owner: Id, calls: Calls)
    requires Create(s, o, name, owner, calls).0.Raises?
    ensures var error := Create(s, o, name, owner, calls).0.error;
      var taken := exists other :: other in s.world.db.orgs && s.world.db.orgs[other] == name;
      && (calls.nameLookup.Raises? ==> error == calls.nameLookup.error)
      && (calls.nameLookup.Ok? && taken ==> error == NameExists)
      && (calls.nameLookup.Ok? && !taken && calls.setUp.BreaksOff? ==>
            error == if calls.setUp.cancelled then Cancelled else IntegrationError)
      && (calls.nameLookup.Ok? && !taken && calls.setUp.Done? ==>
            if Escapes(s.world.db, owner, calls) then error.Cancelled? || (error.OrgDatabaseError? && RowsRaise(calls, error))
            else error == OrgDatabaseError(calls.deleteTeam != Answers))
  {
    BuildRowsExactly(calls);
    if name in s.world.db.orgs.Values {
      var other :| other in s.world.db.orgs && s.world.db.orgs[other] == name;
    }
  }

  /**
   What a failed creation leaves behind.  The team stays exactly when the set-up broke off after
   creating it, the failure got past the handlers, or the cleanup failed; the organization and its
   membership stay exactly when the commit had gone through.
   */
  lemma LeftBehindExactly(s: Saga, o: Id, name: string, owner: Id, calls: Calls)
    requires Fresh(s.world, o) && Create(s, o, name, owner, calls).0.Raises?
    ensures var after := Create(s, o, name, owner, calls).1.world;
      && (o in after.teams
          <==> calls.nameLookup.Ok? && name !in s.world.db.orgs.Values
               && match calls.setUp
                  case BreaksOff(teamCreated, _) => teamCreated
                  case Done => Escapes(s.world.db, owner, calls) || calls.deleteTeam == Fails)
      && (o in after.db.orgs <==> Commits(s.world, name, owner, calls))
      && ((exists m :: m in after.db.members && m.0 == o) <==> o in after.db.orgs)
      && (o !in after.db.orgs ==> after.db == s.world.db)
      && after.teams - {o} == s.world.teams
  {
    BuildRowsExactly(calls);
    var after := Create(s, o, name, owner, calls).1.world;
    if Commits(s.world, name, owner, calls) {
      assert (o, owner) in after.db.members;
    }
  }

  /** A cleaned-up failure leaves the world as it was, exactly when the commit had not gone through. */
  lemma RolledBackExactly(s: Saga, o: Id, name: string, owner: Id, calls: Calls)
    requires Fresh(s.world, o) && SetUpDone(s.world, name, calls) && calls.deleteTeam != Fails
    requires Create(s, o, name, owner, calls).0.Raises? && !Escapes(s.world.db, owner, calls)
    ensures Create(s, o, name, owner, calls).1.world == s.world <==> !Commits(s.world, name, owner, calls)
  {
    LeftBehindExactly(s, o, name, owner, calls);
    var after := Create(s, o, name, owner, calls).1.world;
    assert after.teams == after.teams - {o};
  }

  /** However it ends, a creation takes neither a membership nor the current organization from anybody. */
  lemma CreateOnlyAdds(s: Saga, o: Id, name: string, owner: Id, calls: Calls)
    ensures var db := Create(s, o, name, owner, calls).1.world.db;
      db.users == s.world.db.users && s.world.db.members <= db.members
  {
    assert s.world.db.members <= Persisted(s.world.db, o, name, owner).members;
  }

  /** It leaves an organization without a team exactly when a committed creation is cleaned up. */
  lemma CreateServesExactly(s: Saga, o: Id, name: string, owner: Id, calls: Calls)
    requires Served(s.world) && Fresh(s.world, o)
    ensures var (outcome, s') := Create(s, o, name, owner, calls);
      Served(s'.world) <==> !(Commits(s.world, name, owner, calls) && outcome.Raises? && !Escapes(s.world.db, owner, calls) && calls.deleteTeam != Fails)
  {
    var (outcome, s') := Create(s, o, name, owner, calls);
    if outcome.Ok? {
      CreatedExactly(s, o, name, owner, calls);
    } else {
      LeftBehindExactly(s, o, name, owner, calls);
    }
    if Commits(s.world, name, owner, calls) {
      assert (o, owner) in s'.world.db.members;
    }
    forall m | m in s'.world.db.members && m.0 != o ensures m.0 in s'.world.teams {
      assert m in s.world.db.members;
    }
  }
}

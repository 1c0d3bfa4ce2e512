/** The service that creates organizations and switches between them. */
module OrgService {
  import opened Wrappers
  import opened OrgCreation
  import opened Organizations
  import opened OrgTables

  // ----- switching -----

  datatype SwitchOutcome = Switched | OrgNotFound | NotAuthorized | UserNotFound | UpdateFailed

  /** A failed membership lookup counts as no membership. */
  datatype SwitchCalls = SwitchCalls(lookup: bool, commit: bool)

  function Switch(db: Database, u: Id, o: Id, calls: SwitchCalls): (SwitchOutcome, Database) {
    if o !in db.orgs then (OrgNotFound, db)
    else if !calls.lookup || (o, u) !in db.members then (NotAuthorized, db)
    else if u !in db.users then (UserNotFound, db)
    else if !calls.commit then (UpdateFailed, db)
    else (Switched, UpdateCurrentOrg(db, u, o))
  }

  /**
   Uninterrupted, a switch succeeds exactly for an existing user who is a member, if no call fails; it
   is then its check and its update back to back, and otherwise it changes nothing and says which of
   these was missing first.
   */
  lemma SwitchIsCheckThenUpdate(s: State, u: Id, o: Id, calls: SwitchCalls)
    requires (o, u) !in s.pending
    ensures var (outcome, db) := Switch(s.world.db, u, o, calls);
      var known, member := o in s.world.db.orgs, calls.lookup && (o, u) in s.world.db.members;
      && (outcome == OrgNotFound <==> !known)
      && (outcome == NotAuthorized <==> known && !member)
      && (outcome == UserNotFound <==> known && member && u !in s.world.db.users)
      && (outcome == UpdateFailed <==> known && member && u in s.world.db.users && !calls.commit)
      && (outcome == Switched <==> known && member && u in s.world.db.users && calls.commit)
      && s.(world := s.world.(db := db)) == Run(s, if outcome.Switched? then [SwitchChecked(u, o), SwitchApplied(u, o)] else [])
  {
    var checked := Step(s, SwitchChecked(u, o));
    var applied := Step(checked, SwitchApplied(u, o));
    assert checked.pending - {(o, u)} == s.pending || checked == s;
    assert Run(applied, []) == applied;
    assert Run(checked, [SwitchApplied(u, o)]) == applied;
    assert [SwitchChecked(u, o), SwitchApplied(u, o)][1..] == [SwitchApplied(u, o)];
    assert s.(world := s.world.(db := s.world.db)) == s;
  }

  // ----- the service -----

  class OrgService {
    var saga: Saga

    constructor (world: World)
      ensures saga == Saga(world, [])
    {
      saga := Saga(world, []);
    }

    /** _handle_failure_with_cleanup: it always raises. */
    method HandleFailureWithCleanup(o: Id, deleteTeam: Call) returns (outcome: Outcome)
      modifies this
      ensures (outcome, saga) == CleanUp(old(saga), o, deleteTeam)
    {
      // delete_team: its errors are reported, not raised.
      var teams := saga.world.teams;
      if deleteTeam != Fails {
        teams := teams - {o};
      }
      saga := Logged(saga, saga.world.(teams := teams), TeamDeletion);
      return Raises(OrgDatabaseError(deleteTeam != Answers));
    }

    /** persist_org_with_owner. */
    method PersistOrgWithOwner(o: Id, name: string, owner: Id, calls: Calls) returns (outcome: Outcome)
      modifies this
      ensures (outcome, saga) == Persist(old(saga), o, name, owner, calls)
      ensures calls.commit.Ok? && owner !in old(saga).world.db.users ==> outcome == Raises(OtherError) && saga == old(saga)
    {
      if calls.commit.Raises? {
        return calls.commit;
      }
      if owner !in saga.world.db.users {
        return Raises(OtherError);
      }
      saga := Logged(saga, saga.world.(db := Persisted(saga.world.db, o, name, owner)), OrgCommitted);
      return calls.refresh;
    }

    /** _persist_with_compensation: its handler takes every exception, but not a cancellation. */
    method PersistCompensating(o: Id, name: string, owner: Id, calls: Calls) returns (outcome: Outcome)
      modifies this
      ensures (outcome, saga) == PersistWithCompensation(old(saga), o, name, owner, calls)
    {
      outcome := PersistOrgWithOwner(o, name, owner, calls);
      if outcome.Raises? && !outcome.error.Cancelled? {
        outcome := HandleFailureWithCleanup(o, calls.deleteTeam);
      }
    }

    /** The body of the try in create_org_with_owner: steps 4 to 7. */
    method BuildThenPersist(o: Id, name: string, owner: Id, calls: Calls) returns (outcome: Outcome)
      modifies this
      ensures (outcome, saga) == BuildAndPersist(old(saga), o, name, owner, calls)
    {
      if calls.createEntity.Raises? {
        return calls.createEntity;
      }
      if calls.applySettings.Raises? {
        return calls.applySettings;
      }
      if calls.ownerRole.Raises? {
        return calls.ownerRole;
      }
      if calls.memberEntity.Raises? {
        return calls.memberEntity;
      }
      outcome := PersistCompensating(o, name, owner, calls);
    }

    /** create_org_with_owner, with its two handlers. */
    method CreateOrgWithOwner(o: Id, name: string, owner: Id, calls: Calls) returns (outcome: Outcome)
      modifies this
      ensures (outcome, saga) == Create(old(saga), o, name, owner, calls)
    {
      // Steps 1 to 3 raise past the handlers.
      if calls.nameLookup.Raises? {
        return calls.nameLookup;
      }
      if name in saga.world.db.orgs.Values {
        return Raises(NameExists);
      }
      if calls.setUp.Done? || calls.setUp.teamCreated {
        saga := WithTeam(saga, o);
      }
      if calls.setUp.BreaksOff? {
        return Raises(if calls.setUp.cancelled then Cancelled else IntegrationError);
      }
      outcome := BuildThenPersist(o, name, owner, calls);
      if outcome.Raises? {
        match outcome.error {
          // except OrgDatabaseError: raise
          case OrgDatabaseError(_) =>
          // Not an Exception.
          case Cancelled =>
          // except Exception
          case _ => outcome := HandleFailureWithCleanup(o, calls.deleteTeam);
        }
      }
    }

    /** switch_org. */
    method SwitchOrg(u: Id, o: Id, calls: SwitchCalls) returns (outcome: SwitchOutcome)
      modifies this
      ensures (outcome, saga.world.db) == Switch(old(saga.world.db), u, o, calls)
      ensures saga.world.teams == old(saga.world.teams) && saga.log == old(saga.log)
    {
      if o !in saga.world.db.orgs {
        return OrgNotFound;
      }
      if !calls.lookup || (o, u) !in saga.world.db.members {
        return NotAuthorized;
      }
      if u !in saga.world.db.users {
        return UserNotFound;
      }
      if !calls.commit {
        return UpdateFailed;
      }
      saga := saga.(world := saga.world.(db := saga.world.db.(users := saga.world.db.users[u := o])));
      return Switched;
    }
  }
}

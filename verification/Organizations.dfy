/**
 Organizations: deletion in one transaction that spans the database and LiteLLM, and two rules over
 all that happens to organizations and their members: the current organization of every user is one
 the user belongs to, and every organization with a member has a team.
 */
module Organizations {
  import opened Wrappers
  import opened OrgCreation
  import opened OrgTables
  import UserMigration

  /** Which parts of the deletion succeed: the deletes, the statements after the orphan query, the team, the commit. */
  datatype Faults = Faults(deletes: bool, updates: bool, team: Call, commit: bool)

  // ----- deleting an organization -----

  datatype DeleteOutcome = Deleted | NotFound | Orphans(users: set<Id>) | Error

  function Alternatives(db: Database, o: Id, u: Id): set<Id> {
    set m | m in db.members && m.1 == u && m.0 != o :: m.0
  }

  function Affected(db: Database, o: Id): set<Id> {
    set u | u in db.users && db.users[u] == o
  }

  function OrphansOf(db: Database, o: Id): set<Id> {
    set u | u in Affected(db, o) && Alternatives(db, o, u) == {}
  }

  /** The conversations that the new table gives to an organization. */
  function HeldBy(db: Database, o: Id): set<string> {
    set c | c in db.saas && db.saas[c].org == o
  }

  /** DELETE FROM t WHERE org_id = o. */
  function WithoutOrg(t: Table, o: Id): Table {
    map row | row in t && t[row].org != Some(o) :: t[row]
  }

  /** A choice of another organization for every affected user. */
  predicate Reassigns(db: Database, o: Id, pick: map<Id, Id>) {
    && pick.Keys == Affected(db, o)
    && forall u :: u in pick ==> pick[u] in Alternatives(db, o, u)
  }

  /** The conversations of an organization go from all three tables. */
  function WithoutConversations(db: Database, o: Id): Database {
    var gone := HeldBy(db, o);
    db.(
      conversations := db.conversations - gone,
      startTasks := map t | t in db.startTasks && db.startTasks[t] !in gone :: db.startTasks[t],
      saas := db.saas - gone)
  }

  /** What the transaction commits.  The row of the organization is not among what it removes. */
  function AfterDelete(db: Database, o: Id, pick: map<Id, Id>): Database {
    WithoutConversations(db, o).(
      tables := db.tables.Each(t => WithoutOrg(t, o)),
      users := db.users + pick,
      members := set m | m in db.members && m.0 != o)
  }

  /** The outcome of delete_org_cascade and the world it leaves; `pick` is what LIMIT 1 selects. */
  function DeleteOrg(w: World, o: Id, pick: map<Id, Id>, faults: Faults): (DeleteOutcome, World) {
    if o !in w.db.orgs then (NotFound, w)
    else if !faults.deletes then (Error, w)
    else if OrphansOf(w.db, o) != {} then (Orphans(OrphansOf(w.db, o)), w)
    else if !faults.updates || faults.team == Fails then (Error, w)
    else if faults.team == LosesAnswer || !faults.commit then (Error, w.(teams := w.teams - {o}))
    else (Deleted, World(AfterDelete(w.db, o, pick), w.teams - {o}))
  }

  /** The orphan error names exactly the affected users without another membership. */
  lemma OrphanErrorExactly(w: World, o: Id, pick: map<Id, Id>, faults: Faults)
    requires o in w.db.orgs && faults.deletes
    ensures DeleteOrg(w, o, pick, faults).0.Orphans?
            <==> exists u :: u in w.db.users && w.db.users[u] == o && forall m :: m in w.db.members && m.1 == u ==> m.0 == o
    ensures DeleteOrg(w, o, pick, faults).0.Orphans? ==>
              forall u :: u in DeleteOrg(w, o, pick, faults).0.users
                          <==> u in w.db.users && w.db.users[u] == o && forall m :: m in w.db.members && m.1 == u ==> m.0 == o
  {
    forall u | u in w.db.users && w.db.users[u] == o
      ensures u in OrphansOf(w.db, o) <==> forall m :: m in w.db.members && m.1 == u ==> m.0 == o
    {
      forall m | m in w.db.members && m.1 == u && m.0 != o ensures m.0 in Alternatives(w.db, o, u) {
      }
    }
  }

  /** Without orphans there is an organization to give to every affected user. */
  lemma {:induction false} ReassignmentExists(db: Database, o: Id, us: set<Id>) returns (pick: map<Id, Id>)
    requires us <= Affected(db, o) && OrphansOf(db, o) == {}
    ensures pick.Keys == us && forall u :: u in pick ==> pick[u] in Alternatives(db, o, u)
    decreases |us|
  {
    if us == {} {
      pick := map[];
    } else {
      var u :| u in us;
      pick := ReassignmentExists(db, o, us - {u});
      assert u !in OrphansOf(db, o);
      var a :| a in Alternatives(db, o, u);
      pick := pick[u := a];
    }
  }

  /** Whatever fails, a deletion that does not succeed leaves the database as it was. */
  lemma FailedDeleteChangesNothing(w: World, o: Id, pick: map<Id, Id>, faults: Faults)
    ensures var (outcome, after) := DeleteOrg(w, o, pick, faults);
      && (!outcome.Deleted? ==> after.db == w.db)
      && after.teams + {o} == w.teams + {o}
  {
  }

  /** Which outcome a deletion has; the orphan check comes after the deletes and before everything else. */
  lemma DeletesExactly(w: World, o: Id, pick: map<Id, Id>, faults: Faults)
    ensures var outcome := DeleteOrg(w, o, pick, faults).0;
      var orphans := exists u :: u in w.db.users && w.db.users[u] == o && forall m :: m in w.db.members && m.1 == u ==> m.0 == o;
      && (outcome == NotFound <==> o !in w.db.orgs)
      && (outcome.Orphans? <==> o in w.db.orgs && faults.deletes && orphans)
      && (outcome == Deleted <==>
            o in w.db.orgs && faults.deletes && !orphans && faults.updates && faults.team == Answers && faults.commit)
      && (outcome == Error <==>
            o in w.db.orgs && (!faults.deletes || (!orphans && (!faults.updates || faults.team != Answers || !faults.commit))))
  {
    if o in w.db.orgs && faults.deletes {
      OrphanErrorExactly(w, o, pick, faults);
    }
  }

  /** The team is gone although the deletion did not commit: the answer was lost, or the commit failed after it. */
  predicate LosesTeam(w: World, o: Id, faults: Faults) {
    && o in w.db.orgs && faults.deletes && faults.updates && OrphansOf(w.db, o) == {}
    && (faults.team == LosesAnswer || (faults.team == Answers && !faults.commit))
  }

  predicate KeepsOthers(before: Table, after: Table, o: Id) {
    forall row :: row in before && before[row].org != Some(o) ==> row in after && after[row] == before[row]
  }

  predicate TablesKeepOthers(before: Tables, after: Tables, o: Id) {
    && KeepsOthers(before.billingSessions, after.billingSessions, o)
    && KeepsOthers(before.customSecrets, after.customSecrets, o)
    && KeepsOthers(before.apiKeys, after.apiKeys, o)
    && KeepsOthers(before.slackConversations, after.slackConversations, o)
    && KeepsOthers(before.slackUsers, after.slackUsers, o)
    && KeepsOthers(before.stripeCustomers, after.stripeCustomers, o)
  }

  /** A deletion removes every row the organization owns, its conversations in all three tables, and nothing else. */
  lemma DeleteRemovesExactly(w: World, o: Id, pick: map<Id, Id>, faults: Faults)
    requires DeleteOrg(w, o, pick, faults).0.Deleted? && Reassigns(w.db, o, pick)
    ensures var db := w.db; var after := DeleteOrg(w, o, pick, faults).1.db;
      && after.tables.All(t => NotInOrg(t, o)) && TablesKeepOthers(db.tables, after.tables, o)
      && (forall m :: m in after.members <==> m in db.members && m.0 != o)
      && (forall c :: c in after.saas <==> c in db.saas && db.saas[c].org != o)
      && (forall c :: c in after.saas ==> after.saas[c] == db.saas[c])
      && (forall c :: c in after.conversations <==> c in db.conversations && !(c in db.saas && db.saas[c].org == o))
      && (forall c :: c in after.conversations ==> after.conversations[c] == db.conversations[c])
      && (forall t :: t in after.startTasks
                      <==> t in db.startTasks && !(db.startTasks[t] in db.saas && db.saas[db.startTasks[t]].org == o))
      && after.users.Keys == db.users.Keys
      && (forall u :: u in db.users && db.users[u] != o ==> after.users[u] == db.users[u])
      && (forall u :: u in db.users && db.users[u] == o ==> after.users[u] != o && (after.users[u], u) in db.members)
  {
    var after := AfterDelete(w.db, o, pick);
    assert after.users.Keys == w.db.users.Keys;
    forall u | u in w.db.users && w.db.users[u] == o
      ensures after.users[u] != o && (after.users[u], u) in w.db.members
    {
      assert u in pick && pick[u] in Alternatives(w.db, o, u);
    }
  }

  // ----- the other operations on users and organizations -----

  /** Which calls of create_user succeed; `settings` is false when LiteLLM yields no settings. */
  datatype UserCalls = UserCalls(settings: bool, ownerRole: bool, commit: bool)

  /** create_user: the personal organization, the user and the owner's membership, in one commit. */
  function CreateUser(w: World, u: Id, calls: UserCalls): World {
    if !calls.settings then w
    else
      var withTeam := w.(teams := w.teams + {u});
      if calls.ownerRole && calls.commit && !InsertConflicts(w.db, u) then withTeam.(db := WithPersonalOrg(w.db, u)) else withTeam
  }

  /**
   What creating a user comes to.  The team is made as soon as LiteLLM answers with settings; user,
   personal organization and membership exist afterwards exactly if the other calls succeed too and
   none of their keys, nor the name of the organization, is taken.
   */
  lemma CreatesUserExactly(w: World, u: Id, calls: UserCalls)
    ensures var after := CreateUser(w, u, calls);
      var name := "user_" + u + "_org";
      var free := u !in w.db.users && u !in w.db.orgs && (u, u) !in w.db.members
        && forall o :: o in w.db.orgs ==> w.db.orgs[o] != name;
      var done := calls.settings && calls.ownerRole && calls.commit && free;
      && after.teams == (if calls.settings then w.teams + {u} else w.teams)
      && after.db.users == (if done then w.db.users[u := u] else w.db.users)
      && after.db.orgs == (if done then w.db.orgs[u := name] else w.db.orgs)
      && after.db.members == (if done then w.db.members + {(u, u)} else w.db.members)
  {
    if name :| name in w.db.orgs.Values && name == PersonalName(u) {
      var o :| o in w.db.orgs && w.db.orgs[o] == name;
    }
  }

  predicate CanSwitch(db: Database, u: Id, o: Id) {
    o in db.orgs && (o, u) in db.members
  }

  /** update_current_org: it checks that the user exists, and the foreign key that the organization does. */
  function UpdateCurrentOrg(db: Database, u: Id, o: Id): Database {
    if u in db.users && o in db.orgs then db.(users := db.users[u := o]) else db
  }

  /** remove_user_from_org leaves current_org_id alone. */
  function RemoveMember(db: Database, o: Id, u: Id): Database {
    db.(members := db.members - {(o, u)})
  }

  /** The repair that follows a removal: a user who was in that organization goes to the personal one. */
  function RepairCurrent(db: Database, o: Id, u: Id): Database {
    if u in db.users && db.users[u] == o then UpdateCurrentOrg(db, u, u) else db
  }

  /** migrate_user; `team` says whether LiteLLM makes a team for the user. */
  function MigrateUser(w: World, u: Id, team: bool, calls: UserMigration.Calls): World {
    World(UserMigration.Migrate(w.db, u, calls).1, if team then w.teams + {u} else w.teams)
  }

  /** downgrade_user: LiteLLM deletes the team before the rows are deleted. */
  function DowngradeUser(w: World, u: Id, calls: UserMigration.Calls): World {
    if !UserMigration.Downgradable(w.db, u) || !calls.liteLlm then w
    else World(UserMigration.Downgrade(w.db, u, calls).1, w.teams - {u})
  }

  /** The team of a personal organization is deleted, and the organization is not. */
  predicate DowngradeLosesTeam(db: Database, u: Id, calls: UserMigration.Calls) {
    UserMigration.Downgradable(db, u) && calls.liteLlm && !(calls.commit && !UserMigration.StillReferenced(db, u))
  }

  // ----- two rules over everything that happens -----

  /**
   switch_org checks in transactions of its own before it updates, and a removal is repaired in one
   of its own, so these are separate events.  `pending` holds the switches whose checks have passed
   and `repairs` the removals whose repair is outstanding, each as organization and user.
   */
  datatype State = State(world: World, pending: set<(Id, Id)>, repairs: set<(Id, Id)>)

  datatype Event =
    | UserCreated(u: Id, calls: UserCalls)
    | UserMigrated(u: Id, team: bool, migration: UserMigration.Calls)
    | UserDowngraded(u: Id, downgrade: UserMigration.Calls)
    | SwitchChecked(u: Id, o: Id)
    | SwitchApplied(u: Id, o: Id)
    | OrgCreated(o: Id, name: string, owner: Id, creation: Calls)
    | OrgDeleted(o: Id, pick: map<Id, Id>, faults: Faults)
    | MemberAdded(o: Id, u: Id)
    | MemberRemoved(o: Id, u: Id)
    | RemovalRepaired(o: Id, u: Id)

  /** A deletion can only reassign to organizations that are there to choose from. */
  predicate Possible(s: State, e: Event) {
    e.OrgDeleted? && OrphansOf(s.world.db, e.o) == {} ==> Reassigns(s.world.db, e.o, e.pick)
  }

  function AddMember(w: World, o: Id, u: Id): World {
    if o in w.db.orgs && u in w.db.users then w.(db := w.db.(members := w.db.members + {(o, u)})) else w
  }

  /** A creation gets a freshly generated id. */
  function CreateOrg(w: World, o: Id, name: string, owner: Id, creation: Calls): World {
    if Fresh(w, o) then Create(Saga(w, []), o, name, owner, creation).1.world else w
  }

  function Step(s: State, e: Event): State {
    var w := s.world;
    match e
    case UserCreated(u, calls) => s.(world := CreateUser(w, u, calls))
    case UserMigrated(u, team, migration) => s.(world := MigrateUser(w, u, team, migration))
    case UserDowngraded(u, downgrade) => s.(world := DowngradeUser(w, u, downgrade))
    case SwitchChecked(u, o) => if CanSwitch(w.db, u, o) then s.(pending := s.pending + {(o, u)}) else s
    case SwitchApplied(u, o) =>
      if (o, u) !in s.pending then s
      else s.(world := w.(db := UpdateCurrentOrg(w.db, u, o)), pending := s.pending - {(o, u)})
    case OrgCreated(o, name, owner, creation) => s.(world := CreateOrg(w, o, name, owner, creation))
    case OrgDeleted(o, pick, faults) => s.(world := DeleteOrg(w, o, pick, faults).1)
    case MemberAdded(o, u) => s.(world := AddMember(w, o, u))
    case MemberRemoved(o, u) =>
      if (o, u) !in w.db.members then s
      else s.(world := w.(db := RemoveMember(w.db, o, u)), repairs := s.repairs + {(o, u)})
    case RemovalRepaired(o, u) =>
      if (o, u) !in s.repairs then s
      else s.(world := w.(db := RepairCurrent(w.db, o, u)), repairs := s.repairs - {(o, u)})
  }

  /**
   A removal owes a repair exactly if it removed a member, and a switch passes its check exactly if the
   organization exists and the user is a member.
   */
  lemma EventsTakeEffect(s: State, u: Id, o: Id, calls: UserCalls)
    ensures Step(s, UserCreated(u, calls)).world == CreateUser(s.world, u, calls)
    ensures Step(s, MemberRemoved(o, u)).repairs == s.repairs + if (o, u) in s.world.db.members then {(o, u)} else {}
    ensures (o, u) !in Step(s, MemberRemoved(o, u)).world.db.members && (o, u) !in Step(s, RemovalRepaired(o, u)).repairs
    ensures (o, u) in Step(s, SwitchChecked(u, o)).pending <==> (o, u) in s.pending || (o in s.world.db.orgs && (o, u) in s.world.db.members)
  {
  }

  /**
   The ways to break the first rule: the current organization is left, a checked membership is gone
   when it is applied, or the personal organization a user is moved to is not the user's any more.
   */
  predicate Breaks(s: State, e: Event) {
    var db := s.world.db;
    match e
    case MemberRemoved(o, u) => u in db.users && db.users[u] == o
    case SwitchApplied(u, o) => (o, u) in s.pending && u in db.users && o in db.orgs && (o, u) !in db.members
    case RemovalRepaired(o, u) => (o, u) in s.repairs && u in db.users && db.users[u] == o && u in db.orgs && (u, u) !in db.members
    case _ => false
  }

  lemma DeleteKeepsCurrent(w: World, o: Id, pick: map<Id, Id>, faults: Faults)
    requires BelongsToCurrent(w.db) && (OrphansOf(w.db, o) == {} ==> Reassigns(w.db, o, pick))
    ensures BelongsToCurrent(DeleteOrg(w, o, pick, faults).1.db)
  {
    if DeleteOrg(w, o, pick, faults).0.Deleted? {
      DeleteRemovesExactly(w, o, pick, faults);
    }
  }

  lemma DowngradeKeepsCurrent(w: World, u: Id, calls: UserMigration.Calls)
    requires BelongsToCurrent(w.db)
    ensures BelongsToCurrent(DowngradeUser(w, u, calls).db)
  {
    var after := DowngradeUser(w, u, calls).db;
    if after != w.db {
      forall v | v in after.users ensures (after.users[v], v) in after.members {
        assert w.db.users[v] != u;
      }
    }
  }

  predicate Astray(db: Database, u: Id) {
    u in db.users && (db.users[u], u) !in db.members
  }

  lemma BreakingLeavesAstray(s: State, e: Event)
    requires BelongsToCurrent(s.world.db) && Breaks(s, e)
    ensures Astray(Step(s, e).world.db, e.u)
  {
  }

  /** Every event keeps the first rule, except exactly those that break it. */
  lemma StepKeepsCurrentExactly(s: State, e: Event)
    requires BelongsToCurrent(s.world.db) && Possible(s, e)
    ensures BelongsToCurrent(Step(s, e).world.db) <==> !Breaks(s, e)
  {
    if Breaks(s, e) {
      BreakingLeavesAstray(s, e);
    } else {
      match e
      case UserDowngraded(u, downgrade) => DowngradeKeepsCurrent(s.world, u, downgrade);
      case OrgCreated(o, name, owner, creation) => CreateOnlyAdds(Saga(s.world, []), o, name, owner, creation);
      case OrgDeleted(o, pick, faults) => DeleteKeepsCurrent(s.world, o, pick, faults);
      case _ =>
    }
  }

  /**
   A removal from the current organization and the repair after it restore the rule exactly when the
   personal organization is another one, exists, and still has the user as a member.
   */
  lemma RepairRestoresExactly(db: Database, o: Id, u: Id)
    requires BelongsToCurrent(db) && u in db.users && db.users[u] == o
    ensures BelongsToCurrent(RepairCurrent(RemoveMember(db, o, u), o, u)) <==> o != u && u in db.orgs && (u, u) in db.members
  {
    var after := RepairCurrent(RemoveMember(db, o, u), o, u);
    if !(o != u && u in db.orgs && (u, u) in db.members) {
      assert (after.users[u], u) !in after.members;
    }
  }

  /**
   The ways to break the second rule: a member joins an organization whose team is gone, a deletion,
   a creation or a downgrade loses the team but not the organization, or a user is migrated without
   getting a team.
   */
  predicate Unserves(s: State, e: Event) {
    var w := s.world;
    match e
    case MemberAdded(o, u) => o in w.db.orgs && u in w.db.users && o !in w.teams
    case OrgDeleted(o, _, faults) => LosesTeam(w, o, faults) && exists m :: m in w.db.members && m.0 == o
    case OrgCreated(o, name, owner, creation) =>
      && Fresh(w, o) && Commits(w, name, owner, creation) && creation.refresh.Raises?
      && !creation.refresh.error.Cancelled? && creation.deleteTeam != Fails
    case UserMigrated(u, team, migration) => UserMigration.Migratable(w.db, u, migration) && !team && u !in w.teams
    case UserDowngraded(u, downgrade) => DowngradeLosesTeam(w.db, u, downgrade)
    case _ => false
  }

  lemma DeleteServesExactly(w: World, o: Id, pick: map<Id, Id>, faults: Faults)
    requires Served(w)
    ensures Served(DeleteOrg(w, o, pick, faults).1) <==> !(LosesTeam(w, o, faults) && exists m :: m in w.db.members && m.0 == o)
  {
    var after := DeleteOrg(w, o, pick, faults).1;
    if LosesTeam(w, o, faults) && exists m :: m in w.db.members && m.0 == o {
      var m :| m in w.db.members && m.0 == o;
      assert m in after.db.members && m.0 !in after.teams;
    }
  }

  lemma DowngradeServesExactly(w: World, u: Id, calls: UserMigration.Calls)
    requires Served(w)
    ensures Served(DowngradeUser(w, u, calls)) <==> !DowngradeLosesTeam(w.db, u, calls)
  {
    var after := DowngradeUser(w, u, calls);
    if DowngradeLosesTeam(w.db, u, calls) {
      assert MembersOf(w.db, u) != {};
      var m :| m in MembersOf(w.db, u);
      assert m in after.db.members && m.0 !in after.teams;
    }
  }

  lemma MigrateServesExactly(w: World, u: Id, team: bool, calls: UserMigration.Calls)
    requires Served(w)
    ensures Served(MigrateUser(w, u, team, calls)) <==> !(UserMigration.Migratable(w.db, u, calls) && !team && u !in w.teams)
  {
    UserMigration.MigratesExactly(w.db, u, calls);
    var after := MigrateUser(w, u, team, calls);
    if UserMigration.Migratable(w.db, u, calls) {
      assert (u, u) in after.db.members;
    }
  }

  /** Every event keeps the second rule, except exactly those that break it. */
  lemma StepServesExactly(s: State, e: Event)
    requires Served(s.world)
    ensures Served(Step(s, e).world) <==> !Unserves(s, e)
  {
    var w, after := s.world, Step(s, e).world;
    match e
    case OrgCreated(o, name, owner, creation) =>
      if Fresh(w, o) {
        CreatedExactly(Saga(w, []), o, name, owner, creation);
        CreateServesExactly(Saga(w, []), o, name, owner, creation);
      }
    case OrgDeleted(o, pick, faults) => DeleteServesExactly(w, o, pick, faults);
    case UserDowngraded(u, downgrade) => DowngradeServesExactly(w, u, downgrade);
    case UserMigrated(u, team, migration) => MigrateServesExactly(w, u, team, migration);
    case MemberAdded(o, u) =>
      if Unserves(s, e) {
        assert (o, u) in after.db.members;
      }
    case _ =>
  }

  function Run(s: State, events: seq<Event>): State
    decreases |events|
  {
    if events == [] then s else Run(Step(s, events[0]), events[1..])
  }

  // ----- the first rule over whole runs -----

  /** The current organization of every user is one the user belongs to, or one whose removal is still to be repaired. */
  predicate Repairable(s: State) {
    forall u :: u in s.world.db.users ==> (s.world.db.users[u], u) in s.world.db.members + s.repairs
  }

  /** Where a repair leaves the user. */
  function RepairTarget(db: Database, o: Id, u: Id): Id {
    if u in db.orgs then u else o
  }

  /**
   The ways to lose a user for good: a switch is applied after its check went stale, or a repair
   leaves the user in an organization that is neither the user's nor to be repaired.
   */
  predicate Strays(s: State, e: Event) {
    var db := s.world.db;
    match e
    case SwitchApplied(u, o) => (o, u) in s.pending && u in db.users && o in db.orgs && (o, u) !in db.members + s.repairs
    case RemovalRepaired(o, u) =>
      && (o, u) in s.repairs && u in db.users && db.users[u] == o
      && (RepairTarget(db, o, u), u) !in db.members + (s.repairs - {(o, u)})
    case _ => false
  }

  lemma DeleteKeepsRepairable(s: State, o: Id, pick: map<Id, Id>, faults: Faults)
    requires Repairable(s) && (OrphansOf(s.world.db, o) == {} ==> Reassigns(s.world.db, o, pick))
    ensures Repairable(s.(world := DeleteOrg(s.world, o, pick, faults).1))
  {
    if DeleteOrg(s.world, o, pick, faults).0.Deleted? {
      DeleteRemovesExactly(s.world, o, pick, faults);
    }
  }

  lemma DowngradeKeepsRepairable(s: State, u: Id, calls: UserMigration.Calls)
    requires Repairable(s)
    ensures Repairable(s.(world := DowngradeUser(s.world, u, calls)))
  {
    var after := DowngradeUser(s.world, u, calls).db;
    if after != s.world.db {
      forall v | v in after.users ensures (after.users[v], v) in after.members + s.repairs {
        assert s.world.db.users[v] != u;
      }
    }
  }

  predicate Lost(s: State, u: Id) {
    u in s.world.db.users && (s.world.db.users[u], u) !in s.world.db.members + s.repairs
  }

  lemma RepairKeepsRepairableExactly(s: State, o: Id, u: Id)
    requires Repairable(s)
    ensures Repairable(Step(s, RemovalRepaired(o, u))) <==> !Strays(s, RemovalRepaired(o, u))
  {
    var after := Step(s, RemovalRepaired(o, u));
    if Strays(s, RemovalRepaired(o, u)) {
      assert Lost(after, u);
    }
  }

  /** Every event leaves only users astray whose repair is outstanding, except exactly when one strays. */
  lemma StepKeepsRepairableExactly(s: State, e: Event)
    requires Repairable(s) && Possible(s, e)
    ensures Repairable(Step(s, e)) <==> !Strays(s, e)
  {
    match e
    case UserDowngraded(u, downgrade) => DowngradeKeepsRepairable(s, u, downgrade);
    case OrgCreated(o, name, owner, creation) => CreateOnlyAdds(Saga(s.world, []), o, name, owner, creation);
    case OrgDeleted(o, pick, faults) => DeleteKeepsRepairable(s, o, pick, faults);
    case SwitchApplied(u, _) => assert Strays(s, e) ==> Lost(Step(s, e), u);
    case RemovalRepaired(o, u) => RepairKeepsRepairableExactly(s, o, u);
    case _ =>
  }

  predicate AllPossible(s: State, events: seq<Event>)
    decreases |events|
  {
    events == [] || (Possible(s, events[0]) && AllPossible(Step(s, events[0]), events[1..]))
  }

  predicate NoneStrays(s: State, events: seq<Event>)
    decreases |events|
  {
    events == [] || (!Strays(s, events[0]) && NoneStrays(Step(s, events[0]), events[1..]))
  }

  predicate RepairableThroughout(s: State, events: seq<Event>)
    decreases |events|
  {
    Repairable(s) && (events == [] || RepairableThroughout(Step(s, events[0]), events[1..]))
  }

  /** Over any run, users astray always have their repair outstanding exactly when no event strays. */
  lemma {:induction false} RunKeepsRepairableExactly(s: State, events: seq<Event>)
    requires Repairable(s) && AllPossible(s, events)
    ensures RepairableThroughout(s, events) <==> NoneStrays(s, events)
    decreases |events|
  {
    if events != [] {
      StepKeepsRepairableExactly(s, events[0]);
      if Repairable(Step(s, events[0])) {
        RunKeepsRepairableExactly(Step(s, events[0]), events[1..]);
      }
    }
  }

  /** The memberships that pending switches have checked still hold. */
  predicate ChecksHold(s: State) {
    forall p :: p in s.pending ==> p in s.world.db.members
  }

  /**
   A schedule that takes no membership a pending switch has checked, and in which a repair that has
   to move a user finds an organization of the user's to move to.
   */
  predicate Careful(s: State, events: seq<Event>)
    decreases |events|
  {
    events == [] ||
    (&& Possible(s, events[0])
     && (match events[0]
         case OrgDeleted(o, pick, faults) => forall p :: p in s.pending ==> p.0 != o
         case UserDowngraded(u, _) => forall p :: p in s.pending ==> p.0 != u
         case MemberRemoved(o, u) => (o, u) !in s.pending
         case RemovalRepaired(o, u) =>
           u in s.world.db.users && s.world.db.users[u] == o ==> (RepairTarget(s.world.db, o, u), u) in s.world.db.members
         case _ => true)
     && Careful(Step(s, events[0]), events[1..]))
  }

  lemma CarefulStepKeepsChecks(s: State, e: Event)
    requires ChecksHold(s) && Careful(s, [e])
    ensures ChecksHold(Step(s, e)) && !Strays(s, e)
  {
  }

  /**
   Over any careful run, which may remove users from their current organizations, a user whose
   current organization is not the user's has the repair outstanding; so whenever every removal has
   been repaired, the first rule holds.
   */
  lemma {:induction false} RunKeepsCurrent(s: State, events: seq<Event>)
    requires Repairable(s) && ChecksHold(s) && Careful(s, events)
    ensures Repairable(Run(s, events))
    ensures Run(s, events).repairs == {} ==> BelongsToCurrent(Run(s, events).world.db)
    decreases |events|
  {
    if events != [] {
      assert Careful(s, [events[0]]);
      CarefulStepKeepsChecks(s, events[0]);
      StepKeepsRepairableExactly(s, events[0]);
      RunKeepsCurrent(Step(s, events[0]), events[1..]);
    }
  }

  /**
   A switch that overtakes the deletion of its target: the check passes, the organization is
   deleted, and the update still succeeds, because the row of the organization is left behind.
   */
  lemma DeletionBetweenCheckAndUpdate(s: State, u: Id, home: Id, o: Id)
    requires BelongsToCurrent(s.world.db) && s.pending == {} && home != o
    requires u in s.world.db.users && s.world.db.users[u] == home && o in s.world.db.orgs && (o, u) in s.world.db.members
    requires Affected(s.world.db, o) == {}
    ensures var events := [SwitchChecked(u, o), OrgDeleted(o, map[], Faults(true, true, Answers, true)), SwitchApplied(u, o)];
      var end := Run(s, events);
      && u in end.world.db.users && end.world.db.users[u] == o && !BelongsToCurrent(end.world.db) && o !in end.world.teams
  {
    var checked := Step(s, SwitchChecked(u, o));
    var e := OrgDeleted(o, map[], Faults(true, true, Answers, true));
    var deleted := Step(checked, e);
    var end := Step(deleted, SwitchApplied(u, o));
    assert OrphansOf(s.world.db, o) == {};
    assert (o, u) !in deleted.world.db.members && (o, u) in deleted.pending;
    assert Run(end, []) == end;
    assert Run(deleted, [SwitchApplied(u, o)]) == end;
    assert [e, SwitchApplied(u, o)][1..] == [SwitchApplied(u, o)];
    assert Run(checked, [e, SwitchApplied(u, o)]) == end;
    assert [SwitchChecked(u, o), e, SwitchApplied(u, o)][1..] == [e, SwitchApplied(u, o)];
  }

  /** The queries on users and memberships do not depend on the other tables. */
  lemma SameUsersAndMembers(db: Database, tx: Database, o: Id)
    requires tx.users == db.users && tx.members == db.members
    ensures OrphansOf(tx, o) == OrphansOf(db, o)
    ensures forall pick :: Reassigns(tx, o, pick) ==> Reassigns(db, o, pick)
  {
    assert Affected(tx, o) == Affected(db, o);
    assert forall u :: Alternatives(tx, o, u) == Alternatives(db, o, u);
  }

  // ----- the store -----

  class OrgStore {
    var world: World

    constructor (world: World)
      ensures this.world == world
    {
      this.world := world;
    }

    /** The batch UPDATE of current_org_id, one affected user at a time. */
    method Reassign(tx: Database, o: Id) returns (pick: map<Id, Id>)
      requires OrphansOf(tx, o) == {}
      ensures Reassigns(tx, o, pick)
    {
      pick := map[];
      var todo := Affected(tx, o);
      while todo != {}
        invariant todo <= Affected(tx, o) && pick.Keys == Affected(tx, o) - todo
        invariant forall u :: u in pick ==> pick[u] in Alternatives(tx, o, u)
        decreases |todo|
      {
        var u :| u in todo;
        assert u !in OrphansOf(tx, o);
        var a :| a in Alternatives(tx, o, u);
        pick := pick[u := a];
        todo := todo - {u};
      }
    }

    /** The rows that refer to the conversations of the organization; the conversations themselves come last. */
    method DeleteConversations(db: Database, o: Id) returns (tx: Database)
      ensures tx == WithoutConversations(db, o)
    {
      tx := db.(conversations := db.conversations - HeldBy(db, o));
      assert HeldBy(tx, o) == HeldBy(db, o);
      tx := tx.(startTasks := map t | t in tx.startTasks && tx.startTasks[t] !in HeldBy(tx, o) :: tx.startTasks[t]);
      assert HeldBy(tx, o) == HeldBy(db, o);
      tx := tx.(saas := tx.saas - HeldBy(tx, o));
    }

    /** The deletes from the tables that name their organization. */
    method DeleteOwned(db: Database, o: Id) returns (tx: Database)
      ensures tx == db.(tables := db.tables.Each(t => WithoutOrg(t, o)))
    {
      tx := db.(tables := db.tables.(billingSessions := WithoutOrg(db.tables.billingSessions, o)));
      tx := tx.(tables := tx.tables.(customSecrets := WithoutOrg(tx.tables.customSecrets, o)));
      tx := tx.(tables := tx.tables.(apiKeys := WithoutOrg(tx.tables.apiKeys, o)));
      tx := tx.(tables := tx.tables.(slackConversations := WithoutOrg(tx.tables.slackConversations, o)));
      tx := tx.(tables := tx.tables.(slackUsers := WithoutOrg(tx.tables.slackUsers, o)));
      tx := tx.(tables := tx.tables.(stripeCustomers := WithoutOrg(tx.tables.stripeCustomers, o)));
    }

    /** The rest of the transaction: nobody is left in the organization, and its memberships go. */
    method Reassigned(tx: Database, o: Id) returns (after: Database, pick: map<Id, Id>)
      requires OrphansOf(tx, o) == {}
      ensures Reassigns(tx, o, pick)
      ensures after == tx.(users := tx.users + pick, members := set m | m in tx.members && m.0 != o)
    {
      pick := Reassign(tx, o);
      after := tx.(users := tx.users + pick);
      after := after.(members := set m | m in after.members && m.0 != o);
    }

    /** delete_org_cascade. */
    method DeleteOrgCascade(o: Id, faults: Faults) returns (outcome: DeleteOutcome, pick: map<Id, Id>)
      modifies this
      ensures (outcome, world) == DeleteOrg(old(world), o, pick, faults)
      ensures outcome.Deleted? ==> Reassigns(old(world.db), o, pick)
    {
      pick := map[];
      if o !in world.db.orgs {
        return NotFound, pick;
      }
      if !faults.deletes {
        return Error, pick;
      }
      var tx := DeleteConversations(world.db, o);
      tx := DeleteOwned(tx, o);
      SameUsersAndMembers(world.db, tx, o);
      if OrphansOf(tx, o) != {} {
        return Orphans(OrphansOf(tx, o)), pick;
      }
      tx, pick := Reassigned(tx, o);
      if !faults.updates || faults.team == Fails {
        return Error, pick;
      }
      world := world.(teams := world.teams - {o});
      if faults.team == LosesAnswer || !faults.commit {
        return Error, pick;
      }
      assert tx == AfterDelete(world.db, o, pick);
      world := world.(db := tx);
      return Deleted, pick;
    }
  }
}

/**
 Moving a user from the per-user schema to personal organizations, and back.

 Each operation has a transaction over the tables it touches; a fault in any call or a violated key
 or foreign key rolls it back.  A migration also updates the user's Stripe customer, in a transaction
 of its own that commits while the row of the organization is not yet written.
 */
module UserMigration {
  import opened Wrappers
  import opened OrgTables

  datatype Outcome = Done | NotApplicable | Failed

  /** Which of the calls out of the transaction succeed. */
  datatype Calls = Calls(liteLlm: bool, stripe: bool, ownerRole: bool, commit: bool)

  // ----- the statements -----

  /** UPDATE t SET org_id = u WHERE user = u. */
  function AssignOrg(t: Table, u: Id): Table {
    map row | row in t :: if t[row].user == u then t[row].(org := Some(u)) else t[row]
  }

  /** UPDATE t SET org_id = NULL WHERE org_id = u. */
  function ClearOrg(t: Table, u: Id): Table {
    map row | row in t :: if t[row].org == Some(u) then t[row].(org := None) else t[row]
  }

  function ConversationsOf(db: Database, u: Id): set<string> {
    set c | c in db.conversations && db.conversations[c] == Some(u)
  }

  function SaasOf(db: Database, u: Id): set<string> {
    set c | c in db.saas && db.saas[c].user == u
  }

  // ----- the two transactions -----

  /** Key conflicts that make the inserts of migrate_user fail. */
  predicate Conflicts(db: Database, u: Id) {
    InsertConflicts(db, u) || ConversationsOf(db, u) * db.saas.Keys != {}
  }

  function Migrated(db: Database, u: Id): Database {
    WithPersonalOrg(db, u).(
      settings := db.settings[u := true],
      saas := db.saas + (map c | c in ConversationsOf(db, u) :: Conversation(u, u)),
      tables := db.tables.Each(t => AssignOrg(t, u)))
  }

  /** The user's rows in stripe_customers. */
  function StripeRows(db: Database, u: Id): set<int> {
    set row | row in db.tables.stripeCustomers && db.tables.stripeCustomers[row].user == u
  }

  /**
   migrate_customer: without a row it does nothing; with several, or if the call to Stripe fails, it
   raises; the foreign key admits its commit only if the organization's row is there already.
   */
  predicate StripeCommits(db: Database, u: Id, calls: Calls) {
    |StripeRows(db, u)| == 1 && calls.stripe && u in db.orgs
  }

  function AfterStripe(db: Database, u: Id, calls: Calls): Database {
    if StripeCommits(db, u, calls)
    then db.(tables := db.tables.(stripeCustomers := AssignOrg(db.tables.stripeCustomers, u)))
    else db
  }

  function Migrate(db: Database, u: Id, calls: Calls): (Outcome, Database) {
    if !calls.liteLlm then (Failed, db)
    else if StripeRows(db, u) != {} && !StripeCommits(db, u, calls) then (Failed, db)
    else
      var db1 := AfterStripe(db, u, calls);
      if calls.ownerRole && calls.commit && !Conflicts(db1, u) then (Done, Migrated(db1, u)) else (Failed, db1)
  }

  /** What still refers to the user or to the personal organization when their rows are deleted. */
  predicate StillReferenced(db: Database, u: Id) {
    || (exists m :: m in db.members && m.1 == u && m.0 != u)
    || (exists v :: v in db.users && v != u && db.users[v] == u)
    || (exists c :: c in db.saas && db.saas[c].user != u && db.saas[c].org == u)
  }

  function Downgraded(db: Database, u: Id): Database {
    db.(
      orgs := db.orgs - {u},
      users := db.users - {u},
      members := db.members - MembersOf(db, u),
      settings := db.settings[u := false],
      conversations := map c | c in db.conversations :: if c in SaasOf(db, u) then Some(u) else db.conversations[c],
      saas := db.saas - SaasOf(db, u),
      tables := db.tables.Each(t => ClearOrg(t, u)))
  }

  predicate Downgradable(db: Database, u: Id) {
    u in db.users && u in db.orgs && |MembersOf(db, u)| == 1
  }

  function Downgrade(db: Database, u: Id, calls: Calls): (Outcome, Database) {
    if !Downgradable(db, u) then (NotApplicable, db)
    else if calls.liteLlm && calls.commit && !StillReferenced(db, u) then (Done, Downgraded(db, u))
    else (Failed, db)
  }

  // ----- referential integrity -----

  predicate TableReferences(t: Table, orgs: set<Id>) {
    forall row :: row in t && t[row].org.Some? ==> t[row].org.value in orgs
  }

  /** Every foreign key points to a row that exists. */
  predicate WellFormed(db: Database) {
    && (forall u :: u in db.users ==> db.users[u] in db.orgs)
    && (forall m :: m in db.members ==> m.0 in db.orgs && m.1 in db.users)
    && (forall c :: c in db.saas ==> db.saas[c].user in db.users && db.saas[c].org in db.orgs)
    && db.tables.All(t => TableReferences(t, db.orgs.Keys))
  }

  lemma TableKeepsReferences(t: Table, orgs: set<Id>, u: Id)
    requires TableReferences(t, orgs)
    ensures TableReferences(AssignOrg(t, u), orgs + {u})
    ensures TableReferences(ClearOrg(t, u), orgs - {u})
  {
  }

  lemma TablesKeepReferences(tables: Tables, orgs: set<Id>, u: Id)
    requires tables.All(t => TableReferences(t, orgs))
    ensures tables.Each(t => AssignOrg(t, u)).All(t => TableReferences(t, orgs + {u}))
    ensures tables.Each(t => ClearOrg(t, u)).All(t => TableReferences(t, orgs - {u}))
  {
    TableKeepsReferences(tables.stripeCustomers, orgs, u);
    TableKeepsReferences(tables.slackUsers, orgs, u);
    TableKeepsReferences(tables.slackConversations, orgs, u);
    TableKeepsReferences(tables.apiKeys, orgs, u);
    TableKeepsReferences(tables.customSecrets, orgs, u);
    TableKeepsReferences(tables.billingSessions, orgs, u);
  }

  lemma InsertedConversationsRefer(db: Database, u: Id)
    requires WellFormed(db)
    ensures forall c :: c in Migrated(db, u).saas ==>
      Migrated(db, u).saas[c].user in db.users.Keys + {u} && Migrated(db, u).saas[c].org in db.orgs.Keys + {u}
  {
  }

  lemma MigratedKeepsReferences(db: Database, u: Id)
    requires WellFormed(db)
    ensures WellFormed(Migrated(db, u))
  {
    var after := Migrated(db, u);
    assert after.orgs.Keys == db.orgs.Keys + {u} && after.users.Keys == db.users.Keys + {u};
    TablesKeepReferences(db.tables, db.orgs.Keys, u);
    InsertedConversationsRefer(db, u);
  }

  /** A migration keeps every foreign key valid, whatever fails. */
  lemma MigrateKeepsReferences(db: Database, u: Id, calls: Calls)
    requires WellFormed(db)
    ensures WellFormed(Migrate(db, u, calls).1)
  {
    if StripeCommits(db, u, calls) {
      TableKeepsReferences(db.tables.stripeCustomers, db.orgs.Keys, u);
      assert db.orgs.Keys + {u} == db.orgs.Keys;
    }
    MigratedKeepsReferences(AfterStripe(db, u, calls), u);
  }

  /** A downgrade keeps every foreign key valid, whatever fails. */
  lemma DowngradeKeepsReferences(db: Database, u: Id, calls: Calls)
    requires WellFormed(db)
    ensures WellFormed(Downgrade(db, u, calls).1)
  {
    TablesKeepReferences(db.tables, db.orgs.Keys, u);
    var after := Downgrade(db, u, calls).1;
    assert forall m :: m in after.members ==> m.0 in after.orgs && m.1 in after.users;
    assert forall v :: v in after.users ==> after.users[v] in after.orgs;
  }

  /** Every call succeeds, no key or name is taken, no conversation is in both tables, and the user is no Stripe customer. */
  predicate Migratable(db: Database, u: Id, calls: Calls) {
    && calls.liteLlm && calls.ownerRole && calls.commit
    && u !in db.users && u !in db.orgs && (u, u) !in db.members
    && (forall o :: o in db.orgs ==> db.orgs[o] != "user_" + u + "_org")
    && (forall c :: c in db.conversations && db.conversations[c] == Some(u) ==> c !in db.saas)
    && (forall row :: row in db.tables.stripeCustomers ==> db.tables.stripeCustomers[row].user != u)
  }

  lemma ConflictsExactly(db: Database, u: Id)
    ensures Conflicts(db, u) <==>
      || u in db.users || u in db.orgs || (u, u) in db.members
      || (exists o :: o in db.orgs && db.orgs[o] == "user_" + u + "_org")
      || (exists c :: c in db.conversations && db.conversations[c] == Some(u) && c in db.saas)
    ensures StripeRows(db, u) == {} <==> forall row :: row in db.tables.stripeCustomers ==> db.tables.stripeCustomers[row].user != u
  {
    assert PersonalName(u) == "user_" + u + "_org";
    if c :| c in db.conversations && db.conversations[c] == Some(u) && c in db.saas {
      assert c in ConversationsOf(db, u) * db.saas.Keys;
    }
    var t := db.tables.stripeCustomers;
    if forall row :: row in t ==> t[row].user != u {
      assert forall row :: row !in StripeRows(db, u);
    } else {
      var row :| row in t && t[row].user == u;
      assert row in StripeRows(db, u);
    }
  }

  /**
   A migration succeeds exactly when all calls succeed, nothing conflicts and the user has no row in
   stripe_customers; such a row makes it fail, because it would have to refer to the organization
   before that is written.
   */
  lemma MigratesExactly(db: Database, u: Id, calls: Calls)
    ensures Migrate(db, u, calls).0.Done? <==> Migratable(db, u, calls)
    ensures Migrate(db, u, calls).0.Done? ==> Migrate(db, u, calls).1 == Migrated(db, u) && !Conflicts(db, u)
  {
    ConflictsExactly(db, u);
    if StripeCommits(db, u, calls) {
      assert Conflicts(AfterStripe(db, u, calls), u);
    }
  }

  /**
   A downgrade applies exactly to a user who is the only member of an existing personal organization,
   and succeeds exactly when all calls do and nothing else refers to the user or the organization: no
   other membership of the user, nobody else whose current organization it is, and no conversation in
   it that is somebody else's.  Otherwise it changes nothing.
   */
  lemma DowngradesExactly(db: Database, u: Id, calls: Calls)
    ensures var (outcome, after) := Downgrade(db, u, calls);
      var applies := u in db.users && u in db.orgs && |MembersOf(db, u)| == 1;
      var free := (forall m :: m in db.members && m.1 == u ==> m.0 == u)
        && (forall v :: v in db.users && v != u ==> db.users[v] != u)
        && (forall c :: c in db.saas && db.saas[c].user != u ==> db.saas[c].org != u);
      && (outcome == NotApplicable <==> !applies)
      && (outcome == Done <==> applies && calls.liteLlm && calls.commit && free)
      && (outcome != Done ==> after == db)
  {
  }

  /** A user with a Stripe customer cannot be migrated, whatever answers the calls give. */
  lemma CustomersCannotMigrate(db: Database, u: Id, row: int, calls: Calls)
    requires row in db.tables.stripeCustomers && db.tables.stripeCustomers[row].user == u
    ensures !Migrate(db, u, calls).0.Done?
  {
    assert row in StripeRows(db, u);
    MigratesExactly(db, u, calls);
  }

  /**
   A migration that fails leaves the database as it was, except exactly when the organization's row
   exists and the user's only Stripe customer did not refer to it: that update is committed.
   */
  lemma FailureChangesExactly(db: Database, u: Id, calls: Calls)
    requires !Migrate(db, u, calls).0.Done?
    ensures Migrate(db, u, calls).1 != db
            <==> calls.liteLlm && calls.stripe && u in db.orgs && |StripeRows(db, u)| == 1
                 && exists row :: row in StripeRows(db, u) && db.tables.stripeCustomers[row].org != Some(u)
  {
    var t := db.tables.stripeCustomers;
    if calls.liteLlm && StripeCommits(db, u, calls) {
      assert Migrate(db, u, calls).1 == AfterStripe(db, u, calls);
      if forall row :: row in StripeRows(db, u) ==> t[row].org == Some(u) {
        forall row | row in t ensures AssignOrg(t, u)[row] == t[row] {
          assert t[row].user == u ==> row in StripeRows(db, u);
        }
        assert AssignOrg(t, u) == t;
      } else {
        var row :| row in StripeRows(db, u) && t[row].org != Some(u);
        assert AssignOrg(t, u)[row].org == Some(u);
      }
    }
  }

  // ----- the flag -----

  /** Only the flag of u may differ, and it has this value. */
  predicate FlagSet(before: map<Id, bool>, after: map<Id, bool>, u: Id, flag: bool) {
    && after.Keys == before.Keys + {u} && after[u] == flag
    && forall v :: v in before && v != u ==> after[v] == before[v]
  }

  /** get_user_by_id migrates a user who is not in the new schema and whose settings are not marked as migrated. */
  predicate AwaitsMigration(db: Database, u: Id) {
    u !in db.users && u in db.settings && !db.settings[u]
  }

  /**
   A migration marks the user's settings as migrated and a downgrade unmarks them; neither touches
   anybody else's, and a failure of either touches none.
   */
  lemma FlagFollows(db: Database, u: Id, calls: Calls)
    ensures Migrate(db, u, calls).0.Done? ==> FlagSet(db.settings, Migrate(db, u, calls).1.settings, u, true)
    ensures !Migrate(db, u, calls).0.Done? ==> Migrate(db, u, calls).1.settings == db.settings
    ensures Downgrade(db, u, calls).0.Done? ==> FlagSet(db.settings, Downgrade(db, u, calls).1.settings, u, false)
    ensures !Downgrade(db, u, calls).0.Done? ==> Downgrade(db, u, calls).1.settings == db.settings
  {
    MigratesExactly(db, u, calls);
  }

  /** So a migrated user is not migrated again, whatever happens to the row in users, and a downgraded one is. */
  lemma AwaitsMigrationAgainExactly(db: Database, u: Id, calls: Calls)
    ensures Migrate(db, u, calls).0.Done? ==>
      !AwaitsMigration(Migrate(db, u, calls).1, u) && !AwaitsMigration(Migrate(db, u, calls).1.(users := db.users), u)
    ensures Downgrade(db, u, calls).0.Done? ==> AwaitsMigration(Downgrade(db, u, calls).1, u)
    ensures forall v :: v != u ==> (AwaitsMigration(Migrate(db, u, calls).1, v) <==> AwaitsMigration(db, v))
    ensures forall v :: v != u ==> (AwaitsMigration(Downgrade(db, u, calls).1, v) <==> AwaitsMigration(db, v))
  {
    FlagFollows(db, u, calls);
  }

  // ----- the round trip -----

  predicate Unassigned(t: Table, u: Id) {
    forall row :: row in t && t[row].user == u ==> t[row].org.None?
  }

  lemma TableRoundTrip(t: Table, u: Id, orgs: set<Id>)
    requires TableReferences(t, orgs) && u !in orgs
    ensures ClearOrg(AssignOrg(t, u), u) == t <==> Unassigned(t, u)
  {
    var back := ClearOrg(AssignOrg(t, u), u);
    if back == t {
      forall row | row in t && t[row].user == u ensures t[row].org.None? {
        assert back[row].org.None?;
      }
    }
    if Unassigned(t, u) {
      forall row | row in t ensures back[row] == t[row] {
        assert t[row].org != Some(u);
      }
      assert back == t;
    }
  }

  lemma TablesRoundTrip(tables: Tables, u: Id, orgs: set<Id>)
    requires tables.All(t => TableReferences(t, orgs)) && u !in orgs
    ensures tables.Each(t => AssignOrg(t, u)).Each(t => ClearOrg(t, u)) == tables <==> tables.All(t => Unassigned(t, u))
  {
    TableRoundTrip(tables.stripeCustomers, u, orgs);
    TableRoundTrip(tables.slackUsers, u, orgs);
    TableRoundTrip(tables.slackConversations, u, orgs);
    TableRoundTrip(tables.apiKeys, u, orgs);
    TableRoundTrip(tables.customSecrets, u, orgs);
    TableRoundTrip(tables.billingSessions, u, orgs);
  }

  lemma InsertedConversations(db: Database, u: Id)
    requires WellFormed(db) && !Conflicts(db, u)
    ensures ConversationsOf(db, u) !! db.saas.Keys
    ensures SaasOf(Migrated(db, u), u) == ConversationsOf(db, u)
  {
    assert forall c :: c in ConversationsOf(db, u) && c in db.saas ==> c in ConversationsOf(db, u) * db.saas.Keys;
    assert forall c :: c in db.saas ==> db.saas[c].user in db.users;
  }

  /** Right after the migration, the user's rows in the new schema are the ones it inserted. */
  lemma InsertedRows(db: Database, u: Id)
    requires WellFormed(db) && !Conflicts(db, u)
    ensures ConversationsOf(db, u) !! db.saas.Keys
    ensures SaasOf(Migrated(db, u), u) == ConversationsOf(db, u)
    ensures MembersOf(Migrated(db, u), u) == {(u, u)}
  {
    InsertedConversations(db, u);
    assert forall m :: m in db.members ==> m.0 in db.orgs;
  }

  lemma ConversationsRoundTrip(db: Database, u: Id)
    requires WellFormed(db) && !Conflicts(db, u)
    ensures Downgraded(Migrated(db, u), u).conversations == db.conversations
    ensures Downgraded(Migrated(db, u), u).saas == db.saas
  {
    InsertedRows(db, u);
    var back := Downgraded(Migrated(db, u), u);
    assert back.saas.Keys == db.saas.Keys;
  }

  /** Everything but the six tables comes back as it was. */
  lemma RowsRoundTrip(db: Database, u: Id)
    requires WellFormed(db) && !Conflicts(db, u) && u in db.settings && !db.settings[u]
    ensures Downgraded(Migrated(db, u), u).(tables := db.tables) == db
  {
    ConversationsRoundTrip(db, u);
    InsertedRows(db, u);
    var back := Downgraded(Migrated(db, u), u);
    assert back.orgs == db.orgs && back.users == db.users && back.members == db.members && back.settings == db.settings;
  }

  /** Nothing else in the database refers to a user who has just been inserted. */
  lemma NothingElseRefers(db: Database, u: Id)
    requires WellFormed(db) && !Conflicts(db, u)
    ensures !StillReferenced(Migrated(db, u), u)
  {
    var after := Migrated(db, u);
    forall m | m in after.members && m.1 == u ensures m.0 == u {
      assert m in db.members ==> m.1 in db.users;
    }
    forall v | v in after.users && v != u ensures after.users[v] != u {
      assert db.users[v] in db.orgs;
    }
    forall c | c in after.saas && after.saas[c].user != u ensures after.saas[c].org != u {
      assert c !in ConversationsOf(db, u) ==> db.saas[c].org in db.orgs;
    }
  }

  /** A migrated user can be downgraded right away. */
  lemma MigratedIsDowngradable(db: Database, u: Id)
    requires WellFormed(db) && !Conflicts(db, u)
    ensures Downgradable(Migrated(db, u), u)
  {
    InsertedRows(db, u);
  }

  /**
   Migrating a user and downgrading again restores the whole database, exactly when the org_id of
   all the user's rows in the six tables was NULL before.
   */
  lemma MigrateDowngradeRestores(db: Database, u: Id, calls: Calls, calls': Calls)
    requires WellFormed(db) && u in db.settings && !db.settings[u]
    requires Migrate(db, u, calls).0.Done? && calls'.liteLlm && calls'.commit
    ensures var migrated := Migrate(db, u, calls).1;
      && Downgrade(migrated, u, calls').0.Done?
      && (Downgrade(migrated, u, calls').1 == db <==> db.tables.All(t => Unassigned(t, u)))
  {
    MigratesExactly(db, u, calls);
    MigratedIsDowngradable(db, u);
    NothingElseRefers(db, u);
    RowsRoundTrip(db, u);
    TablesRoundTrip(db.tables, u, db.orgs.Keys);
  }

  /** No row of the new schema mentions the user or the personal organization. */
  predicate Gone(db: Database, u: Id) {
    && u !in db.orgs && u !in db.users
    && (forall m :: m in db.members ==> m.0 != u && m.1 != u)
    && (forall c :: c in db.saas ==> db.saas[c].user != u && db.saas[c].org != u)
    && (forall v :: v in db.users ==> db.users[v] != u)
    && db.tables.All(t => NotInOrg(t, u))
  }

  /** Whatever the user did since the migration, a downgrade leaves no row of the new schema. */
  lemma DowngradeLeavesNothing(db: Database, u: Id, calls: Calls)
    requires WellFormed(db) && Downgrade(db, u, calls).0.Done?
    ensures Gone(Downgrade(db, u, calls).1, u)
  {
  }

  /** Rows of other users stay, except that they no longer refer to the organization that is gone. */
  predicate OthersKept(before: Table, after: Table, u: Id) {
    && before.Keys == after.Keys
    && forall row :: row in before && before[row].user != u && before[row].org != Some(u) ==> after[row] == before[row]
  }

  /**
   A downgrade gives the user, in the old table, every conversation held in the new one, among them
   those created since the migration, and leaves everybody else's data alone.
   */
  lemma DowngradeReturnsConversations(db: Database, u: Id, calls: Calls)
    requires Downgrade(db, u, calls).0.Done?
    ensures var back := Downgrade(db, u, calls).1;
      && (forall c :: c in db.conversations && c in db.saas && db.saas[c].user == u ==> back.conversations[c] == Some(u))
      && (forall c :: c in db.conversations && !(c in db.saas && db.saas[c].user == u) ==> back.conversations[c] == db.conversations[c])
      && (forall c :: c in db.saas && db.saas[c].user != u ==> c in back.saas && back.saas[c] == db.saas[c])
      && (forall v :: v in db.users && v != u ==> v in back.users && back.users[v] == db.users[v])
      && (forall m :: m in db.members && m.0 != u ==> m in back.members)
      && OthersKept(db.tables.stripeCustomers, back.tables.stripeCustomers, u)
      && OthersKept(db.tables.slackUsers, back.tables.slackUsers, u)
      && OthersKept(db.tables.slackConversations, back.tables.slackConversations, u)
      && OthersKept(db.tables.apiKeys, back.tables.apiKeys, u)
      && OthersKept(db.tables.customSecrets, back.tables.customSecrets, u)
      && OthersKept(db.tables.billingSessions, back.tables.billingSessions, u)
  {
  }

  /** What may happen between the two: conversations are created and removed, users join, leave and switch. */
  datatype Activity =
    | NewConversation(c: string, user: Id, org: Id)
    | DropConversation(c: string)
    | NewRow(row: int, user: Id, org: Id)
    | Join(org: Id, user: Id)
    | Leave(org: Id, user: Id)
    | SwitchOrg(user: Id, org: Id)

  /** The foreign keys refuse an activity that names a row that does not exist. */
  function Act(db: Database, a: Activity): Database {
    match a
    case NewConversation(c, user, org) =>
      if c in db.conversations || c in db.saas || user !in db.users || org !in db.orgs then db
      else db.(conversations := db.conversations[c := None], saas := db.saas[c := Conversation(user, org)])
    case DropConversation(c) => db.(conversations := db.conversations - {c}, saas := db.saas - {c})
    case NewRow(row, user, org) =>
      if row in db.tables.apiKeys || org !in db.orgs then db
      else db.(tables := db.tables.(apiKeys := db.tables.apiKeys[row := Owned(user, Some(org))]))
    case Join(org, user) =>
      if org !in db.orgs || user !in db.users then db else db.(members := db.members + {(org, user)})
    case Leave(org, user) => db.(members := db.members - {(org, user)})
    case SwitchOrg(user, org) =>
      if (org, user) !in db.members || user !in db.users then db else db.(users := db.users[user := org])
  }

  function ActAll(db: Database, activities: seq<Activity>): Database
    decreases |activities|
  {
    if activities == [] then db else ActAll(Act(db, activities[0]), activities[1..])
  }

  /** Conversations in the old table that belong to the user there or, since the migration, in the new one. */
  predicate BelongsTo(db: Database, c: string, u: Id) {
    c in db.conversations && if c in db.saas then db.saas[c].user == u else db.conversations[c] == Some(u)
  }

  /** What the old table says about the user's conversations is not contradicted by the new one. */
  predicate Agrees(db: Database, u: Id) {
    forall c :: c in db.conversations && db.conversations[c] == Some(u) ==> BelongsTo(db, c, u)
  }

  /** What an activity comes to: nothing, unless the rows that it names are there and the one it adds is not. */
  lemma ActivityTakesEffect(db: Database, a: Activity)
    ensures var after := Act(db, a);
      match a
      case NewConversation(c, user, org) =>
        if c !in db.conversations && c !in db.saas && user in db.users && org in db.orgs
        then forall u :: BelongsTo(after, c, u) <==> u == user else after == db
      case DropConversation(c) => c !in after.conversations && c !in after.saas
      case NewRow(row, user, org) =>
        if row !in db.tables.apiKeys && org in db.orgs
        then row in after.tables.apiKeys && after.tables.apiKeys[row] == Owned(user, Some(org)) else after == db
      case Join(org, user) => (org, user) in after.members <==> (org, user) in db.members || (org in db.orgs && user in db.users)
      case Leave(org, user) => (org, user) !in after.members && after.members + {(org, user)} == db.members + {(org, user)}
      case SwitchOrg(user, org) =>
        after.users == if user in db.users && (org, user) in db.members then db.users[user := org] else db.users
  {
  }

  lemma ActKeepsReferences(db: Database, a: Activity)
    requires WellFormed(db)
    ensures WellFormed(Act(db, a))
  {
  }

  lemma ActKeepsAgreement(db: Database, a: Activity, u: Id)
    requires Agrees(db, u)
    ensures Agrees(Act(db, a), u)
  {
    var next := Act(db, a);
    forall c | c in next.conversations && next.conversations[c] == Some(u) ensures BelongsTo(next, c, u) {
      assert BelongsTo(db, c, u);
    }
  }

  lemma {:induction false} ActivityKeepsIntegrity(db: Database, activities: seq<Activity>, u: Id)
    requires WellFormed(db) && Agrees(db, u)
    ensures WellFormed(ActAll(db, activities)) && Agrees(ActAll(db, activities), u)
    decreases |activities|
  {
    if activities != [] {
      ActKeepsReferences(db, activities[0]);
      ActKeepsAgreement(db, activities[0], u);
      ActivityKeepsIntegrity(Act(db, activities[0]), activities[1..], u);
    }
  }

  /**
   From migration through any activity to a successful downgrade: the old table then names the user
   as owner of exactly the conversations that belonged to the user when the downgrade began.
   */
  lemma MigratedLifeRoundTrip(db: Database, u: Id, calls: Calls, activities: seq<Activity>, calls': Calls, c: string)
    requires WellFormed(db) && Migrate(db, u, calls).0.Done?
    requires Downgrade(ActAll(Migrated(db, u), activities), u, calls').0.Done?
    ensures var before := ActAll(Migrated(db, u), activities);
      var after := Downgrade(before, u, calls').1;
      && Gone(after, u)
      && (c in before.conversations ==> c in after.conversations)
      && (c in after.conversations ==> (after.conversations[c] == Some(u) <==> BelongsTo(before, c, u)))
  {
    MigratesExactly(db, u, calls);
    MigratedKeepsReferences(db, u);
    var migrated := Migrated(db, u);
    forall c | c in migrated.conversations && migrated.conversations[c] == Some(u) ensures BelongsTo(migrated, c, u) {
      assert c in ConversationsOf(db, u);
    }
    ActivityKeepsIntegrity(migrated, activities, u);
    var before := ActAll(migrated, activities);
    DowngradeLeavesNothing(before, u, calls');
  }

  // ----- the store -----

  lemma OnlyRow(rows: set<int>, row: int)
    requires |rows| == 1 && row in rows
    ensures rows == {row}
  {
    assert |rows - {row}| == 0;
    assert rows == (rows - {row}) + {row};
  }

  /** No foreign key refuses the deletes if nothing refers to the user or the organization when their turn comes. */
  lemma DeletesGoThrough(db: Database, u: Id)
    requires var tx := Downgraded(db, u);
      && (forall m :: m in tx.members ==> m.1 != u)
      && (forall v :: v in tx.users ==> tx.users[v] != u)
      && (forall c :: c in tx.saas ==> tx.saas[c].org != u)
    ensures !StillReferenced(db, u)
  {
    var tx := Downgraded(db, u);
    assert forall m :: m in db.members && m.1 == u && m.0 != u ==> m in tx.members;
    assert forall v :: v in db.users && v != u ==> v in tx.users;
    assert forall c :: c in db.saas && db.saas[c].user != u ==> c in tx.saas;
  }

  class UserStore {
    var db: Database

    constructor (db: Database)
      ensures this.db == db
    {
      this.db := db;
    }

    /** migrate_customer, in a session of its own: it commits what it writes. */
    method MigrateCustomer(u: Id, calls: Calls) returns (raised: bool)
      modifies this
      ensures raised == (StripeRows(old(db), u) != {} && !StripeCommits(old(db), u, calls))
      ensures db == AfterStripe(old(db), u, calls)
    {
      var rows := StripeRows(db, u);
      if rows == {} {
        return false;
      }
      if |rows| != 1 || !calls.stripe {
        return true;
      }
      // The foreign key of org_id, checked by this commit.
      if u !in db.orgs {
        return true;
      }
      var row := Any(rows);
      var t := db.tables.stripeCustomers;
      OnlyRow(rows, row);
      db := db.(tables := db.tables.(stripeCustomers := t[row := t[row].(org := Some(u))]));
      assert t[row := t[row].(org := Some(u))] == AssignOrg(t, u) by {
        assert forall r :: r in t && t[r].user == u ==> r in rows;
      }
      return false;
    }

    /** The updates of the six tables in migrate_user. */
    method AssignTables(db: Database, u: Id) returns (tx: Database)
      ensures tx == db.(tables := db.tables.Each(t => AssignOrg(t, u)))
    {
      tx := db.(tables := db.tables.(stripeCustomers := AssignOrg(db.tables.stripeCustomers, u)));
      tx := tx.(tables := tx.tables.(slackUsers := AssignOrg(tx.tables.slackUsers, u)));
      tx := tx.(tables := tx.tables.(slackConversations := AssignOrg(tx.tables.slackConversations, u)));
      tx := tx.(tables := tx.tables.(apiKeys := AssignOrg(tx.tables.apiKeys, u)));
      tx := tx.(tables := tx.tables.(customSecrets := AssignOrg(tx.tables.customSecrets, u)));
      tx := tx.(tables := tx.tables.(billingSessions := AssignOrg(tx.tables.billingSessions, u)));
    }

    /** The updates of the six tables in downgrade_user. */
    method ClearTables(db: Database, u: Id) returns (tx: Database)
      ensures tx == db.(tables := db.tables.Each(t => ClearOrg(t, u)))
    {
      tx := db.(tables := db.tables.(stripeCustomers := ClearOrg(db.tables.stripeCustomers, u)));
      tx := tx.(tables := tx.tables.(slackUsers := ClearOrg(tx.tables.slackUsers, u)));
      tx := tx.(tables := tx.tables.(slackConversations := ClearOrg(tx.tables.slackConversations, u)));
      tx := tx.(tables := tx.tables.(apiKeys := ClearOrg(tx.tables.apiKeys, u)));
      tx := tx.(tables := tx.tables.(customSecrets := ClearOrg(tx.tables.customSecrets, u)));
      tx := tx.(tables := tx.tables.(billingSessions := ClearOrg(tx.tables.billingSessions, u)));
    }

    /** migrate_user: the statements of its transaction, in order. */
    method MigrateUser(u: Id, calls: Calls) returns (outcome: Outcome)
      modifies this
      ensures (outcome, db) == Migrate(old(db), u, calls)
    {
      // The organization is added to the session, but not written yet.
      if !calls.liteLlm {
        return Failed;
      }
      var raised := MigrateCustomer(u, calls);
      if raised {
        return Failed;
      }
      var tx := db;
      if !calls.ownerRole {
        return Failed;
      }
      // The flush inserts organization, user and membership.
      if u in tx.orgs || PersonalName(u) in tx.orgs.Values || u in tx.users || (u, u) in tx.members {
        return Failed;
      }
      tx := tx.(orgs := tx.orgs[u := PersonalName(u)], users := tx.users[u := u], members := tx.members + {(u, u)});
      tx := tx.(settings := tx.settings[u := true]);
      // INSERT INTO conversation_metadata_saas ... SELECT
      if ConversationsOf(tx, u) * tx.saas.Keys != {} {
        assert ConversationsOf(tx, u) == ConversationsOf(db, u);
        return Failed;
      }
      tx := tx.(saas := tx.saas + (map c | c in ConversationsOf(tx, u) :: Conversation(u, u)));
      tx := AssignTables(tx, u);
      assert ConversationsOf(db, u) * db.saas.Keys == {};
      if !calls.commit {
        return Failed;
      }
      db := tx;
      return Done;
    }

    /** downgrade_user: the statements of its transaction, in order; the deletes fail on a foreign key. */
    method DowngradeUser(u: Id, calls: Calls) returns (outcome: Outcome)
      modifies this
      ensures (outcome, db) == Downgrade(old(db), u, calls)
    {
      if u !in db.users || u !in db.orgs || |MembersOf(db, u)| != 1 {
        return NotApplicable;
      }
      var tx := db;
      if !calls.liteLlm {
        return Failed;
      }
      var held := SaasOf(tx, u);
      tx := tx.(conversations := map c | c in tx.conversations :: if c in held then Some(u) else tx.conversations[c]);
      tx := tx.(saas := tx.saas - held);
      tx := ClearTables(tx, u);
      tx := tx.(members := tx.members - MembersOf(tx, u));
      // DELETE FROM "user"
      if exists m :: m in tx.members && m.1 == u {
        return Failed;
      }
      tx := tx.(users := tx.users - {u});
      // DELETE FROM org
      if (exists v :: v in tx.users && tx.users[v] == u) || (exists c :: c in tx.saas && tx.saas[c].org == u) {
        return Failed;
      }
      tx := tx.(orgs := tx.orgs - {u}, settings := tx.settings[u := false]);
      assert tx == Downgraded(db, u);
      DeletesGoThrough(db, u);
      if !calls.commit {
        return Failed;
      }
      db := tx;
      return Done;
    }
  }
}

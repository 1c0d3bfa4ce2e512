/**
 The tables around users and organizations, and the queries that several operations make.

 A user id is at once the text id of the old tables, the UUID of the new ones and the id of the
 user's personal organization.
 */
module OrgTables {
  import opened Wrappers

  type Id = string

  /** A row that names a user and may name an organization. */
  datatype Owned = Owned(user: Id, org: Option<Id>)
  type Table = map<int, Owned>

  datatype Conversation = Conversation(user: Id, org: Id)

  /** The six tables with a nullable org_id column. */
  datatype Tables = Tables(
    stripeCustomers: Table,
    slackUsers: Table,
    slackConversations: Table,
    apiKeys: Table,
    customSecrets: Table,
    billingSessions: Table)
  {
    function Each(f: Table -> Table): Tables {
      Tables(f(stripeCustomers), f(slackUsers), f(slackConversations), f(apiKeys), f(customSecrets), f(billingSessions))
    }

    predicate All(p: Table -> bool) {
      p(stripeCustomers) && p(slackUsers) && p(slackConversations) && p(apiKeys) && p(customSecrets) && p(billingSessions)
    }
  }

  /**
   `orgs` maps an organization to its name, `users` a user to the current organization, `settings` to
   the already_migrated flag; `conversations` is the old table with its nullable owner, `saas` the
   new one, and `startTasks` maps a start task to its conversation.
   */
  datatype Database = Database(
    orgs: map<Id, string>,
    users: map<Id, Id>,
    members: set<(Id, Id)>,
    settings: map<Id, bool>,
    conversations: map<string, Option<Id>>,
    saas: map<string, Conversation>,
    startTasks: map<int, string>,
    tables: Tables)

  /** The database and the teams that exist in LiteLLM. */
  datatype World = World(db: Database, teams: set<Id>)

  /** The name of a personal organization; names are unique. */
  function PersonalName(u: Id): string {
    "user_" + u + "_org"
  }

  function MembersOf(db: Database, o: Id): set<(Id, Id)> {
    set m | m in db.members && m.0 == o
  }

  /** Key conflicts that make the inserts of organization, user and membership fail. */
  predicate InsertConflicts(db: Database, u: Id) {
    u in db.orgs || PersonalName(u) in db.orgs.Values || u in db.users || (u, u) in db.members
  }

  /** The rows of a new user: the personal organization, the user in it, and the owner's membership. */
  function WithPersonalOrg(db: Database, u: Id): Database {
    db.(orgs := db.orgs[u := PersonalName(u)], users := db.users[u := u], members := db.members + {(u, u)})
  }

  predicate NotInOrg(t: Table, o: Id) {
    forall row :: row in t ==> t[row].org != Some(o)
  }

  /** The current organization of every user is one the user belongs to. */
  predicate BelongsToCurrent(db: Database) {
    forall u :: u in db.users ==> (db.users[u], u) in db.members
  }

  /** Every organization that has a member has a team. */
  predicate Served(w: World) {
    forall m :: m in w.db.members ==> m.0 in w.teams
  }
}

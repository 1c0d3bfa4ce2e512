/**
 Budgets in LiteLLM when a user moves to a personal team and back.

 LiteLLM is a set of tables of users, teams with their memberships, and keys.  An operation is a
 sequence of calls; any call may raise, and then the calls before it stay in effect.  Amounts are
 exact numbers.
 */
module LiteLlm {
  import opened Wrappers

  type Id = string

  const UNLIMITED_BUDGET := 1000000000.0

  datatype Member = Member(budget: Option<real>, spend: real)
  datatype Team = Team(budget: Option<real>, spend: real, members: map<Id, Member>)
  datatype User = User(budget: Option<real>, spend: Option<real>)
  datatype Key = Key(owner: Id, team: Option<Id>)
  datatype Lite = Lite(users: map<Id, User>, teams: map<Id, Team>, keys: map<string, Key>)

  /** What the migration reads of the stored settings. */
  datatype Settings = Settings(version: int, margin: Option<real>)

  datatype Answer = Completed | NotApplicable | Raised

  function Max(a: real, b: real): real {
    if a < b then b else a
  }

  function ValueOr(x: Option<real>, default: real): real {
    if x.Some? then x.value else default
  }

  // ----- the calls -----

  /** A team that exists keeps its spend and its members. */
  function CreateTeam(l: Lite, org: Id, budget: real): Lite {
    var team := if org in l.teams then l.teams[org].(budget := Some(budget)) else Team(Some(budget), 0.0, map[]);
    l.(teams := l.teams[org := team])
  }

  function UpdateUser(l: Lite, u: Id, user: User): Lite {
    l.(users := l.users[u := user])
  }

  /** A user who is already in the team keeps the membership as it is. */
  function AddUserToTeam(l: Lite, u: Id, org: Id, budget: real): Lite {
    if org !in l.teams || u in l.teams[org].members then l
    else
      var team := l.teams[org];
      l.(teams := l.teams[org := team.(members := team.members[u := Member(Some(budget), 0.0)])])
  }

  /** Of the user's keys, those that were listed, accepted and reached take the new team. */
  function MoveKeys(l: Lite, u: Id, team: Option<Id>, moved: set<string>): Lite {
    l.(keys := map k | k in l.keys :: if l.keys[k].owner == u && k in moved then l.keys[k].(team := team) else l.keys[k])
  }

  function RemoveUserFromTeam(l: Lite, u: Id, org: Id): Lite {
    if org !in l.teams then l
    else l.(teams := l.teams[org := l.teams[org].(members := l.teams[org].members - {u})])
  }

  function DeleteTeam(l: Lite, org: Id): Lite {
    l.(teams := l.teams - {org})
  }

  // ----- migrate_entries -----

  /** Before version 4 the billing margin was applied outside of LiteLLM. */
  predicate AppliesMargin(s: Settings) {
    s.version < 4 && s.margin.Some? && s.margin.value != 0.0 && s.margin.value != 1.0
  }

  predicate AlreadyMigrated(user: User) {
    user.budget.None? || user.budget.value == UNLIMITED_BUDGET
  }

  function Credit(user: User, s: Settings): real {
    var budget := ValueOr(user.budget, 0.0);
    var spend := ValueOr(user.spend, 0.0);
    if AppliesMargin(s) then Max(budget * s.margin.value - spend * s.margin.value, 0.0) else Max(budget - spend, 0.0)
  }

  function MigrateCall(l: Lite, u: Id, org: Id, credit: real, moved: set<string>, call: nat): Lite {
    match call
    case 0 => CreateTeam(l, org, credit)
    case 1 => if u in l.users then UpdateUser(l, u, l.users[u].(budget := Some(UNLIMITED_BUDGET))) else l
    case 2 => AddUserToTeam(l, u, org, credit)
    case 3 => MoveKeys(l, u, Some(org), moved)
    case _ => l
  }

  function MigrateCalls(l: Lite, u: Id, org: Id, credit: real, moved: set<string>, n: nat): Lite {
    if n == 0 then l else MigrateCall(MigrateCalls(l, u, org, credit, moved, n - 1), u, org, credit, moved, n - 1)
  }

  /**
   migrate_entries with `n` of its calls going through.  The loop over the keys is the last: with
   four, it raised after moving those in `moved`.
   */
  function Migrate(l: Lite, u: Id, org: Id, s: Settings, n: nat, moved: set<string>): (Answer, Lite) {
    if u !in l.users then (Raised, l)
    else if AlreadyMigrated(l.users[u]) then (NotApplicable, l)
    else (if n < 5 then Raised else Completed, MigrateCalls(l, u, org, Credit(l.users[u], s), moved, if n < 4 then n else 4))
  }

  // ----- downgrade_entries -----

  /** The team's budget and spend, or the member's where the membership reports a budget of its own. */
  function Restored(l: Lite, u: Id, org: Id, reports: bool): User
    requires org in l.teams
  {
    var team := l.teams[org];
    if u == org && u in team.members && reports && team.members[u].budget.Some?
    then User(team.members[u].budget, Some(team.members[u].spend))
    else User(Some(ValueOr(team.budget, 0.0)), Some(team.spend))
  }

  function DowngradeCall(l: Lite, u: Id, org: Id, user: User, home: Id, moved: set<string>, call: nat): Lite {
    match call
    case 0 => UpdateUser(l, u, user)
    case 1 => AddUserToTeam(l, u, home, ValueOr(user.budget, 0.0))
    case 2 => MoveKeys(l, u, Some(home), moved)
    case 3 => RemoveUserFromTeam(l, u, org)
    case 4 => DeleteTeam(l, org)
    case _ => l
  }

  function DowngradeCalls(l: Lite, u: Id, org: Id, user: User, home: Id, moved: set<string>, n: nat): Lite {
    if n == 0 then l else DowngradeCall(DowngradeCalls(l, u, org, user, home, moved, n - 1), u, org, user, home, moved, n - 1)
  }

  /** How far it gets: nobody can be added to a default team that does not exist. */
  function Reached(l: Lite, home: Id, n: nat): nat {
    if home !in l.teams && n > 1 then 1 else if n < 5 then n else 5
  }

  /** downgrade_entries with `n` of its calls going through; `home` is the default team. */
  function Downgrade(l: Lite, u: Id, org: Id, home: Id, reports: bool, n: nat, moved: set<string>): (Answer, Lite) {
    if org !in l.teams then (Raised, l)
    else (if Reached(l, home, n) < 5 then Raised else Completed,
          DowngradeCalls(l, u, org, Restored(l, u, org, reports), home, moved, Reached(l, home, n)))
  }

  // ----- migration -----

  function TeamCredit(t: Team): real {
    ValueOr(t.budget, 0.0) - t.spend
  }

  function UserCredit(user: User): real {
    ValueOr(user.budget, 0.0) - ValueOr(user.spend, 0.0)
  }

  /** A completed migration, call by call. */
  lemma MigrateUnfolds(l: Lite, u: Id, org: Id, s: Settings, moved: set<string>)
    requires u in l.users && !AlreadyMigrated(l.users[u])
    ensures var c := Credit(l.users[u], s);
      var l1 := CreateTeam(l, org, c);
      var l2 := UpdateUser(l1, u, l1.users[u].(budget := Some(UNLIMITED_BUDGET)));
      Migrate(l, u, org, s, 5, moved).1 == MoveKeys(AddUserToTeam(l2, u, org, c), u, Some(org), moved)
  {
    var c := Credit(l.users[u], s);
    assert MigrateCalls(l, u, org, c, moved, 1) == CreateTeam(l, org, c);
    assert MigrateCalls(l, u, org, c, moved, 2) == MigrateCall(CreateTeam(l, org, c), u, org, c, moved, 1);
    assert MigrateCalls(l, u, org, c, moved, 3) == MigrateCall(MigrateCalls(l, u, org, c, moved, 2), u, org, c, moved, 2);
  }

  /** The margin-adjusted remainder of the user's budget becomes the team's credit, exactly when the team has no spend of its own. */
  lemma MigrationConservesExactly(l: Lite, u: Id, org: Id, s: Settings, moved: set<string>)
    requires u in l.users && !AlreadyMigrated(l.users[u])
    ensures var after := Migrate(l, u, org, s, 5, moved).1;
      && org in after.teams && u in after.teams[org].members && u in after.users && AlreadyMigrated(after.users[u])
      && (TeamCredit(after.teams[org]) == Credit(l.users[u], s) <==> org in l.teams ==> l.teams[org].spend == 0.0)
  {
    MigrateUnfolds(l, u, org, s, moved);
  }

  lemma ScalingKeepsSign(m: real, x: real)
    ensures m > 0.0 ==> (m * x > 0.0 <==> x > 0.0)
    ensures m < 0.0 ==> (m * x > 0.0 <==> x < 0.0)
    ensures m == 0.0 || x == 0.0 <==> m * x == 0.0
  {
  }

  /**
   The credit is what was left of the user's budget, never less than nothing.  Only for settings from
   before version 4 that carry a margin, neither 0 nor 1, is it another amount: then it is that many
   times what was left, exactly if the margin is positive or the budget was used up to the cent.
   */
  lemma CreditIsAdjustedRemainder(user: User, s: Settings)
    ensures var left := (if user.budget.Some? then user.budget.value else 0.0) - if user.spend.Some? then user.spend.value else 0.0;
      var rest := if left > 0.0 then left else 0.0;
      && Credit(user, s) >= 0.0
      && (s.version >= 4 || s.margin.None? || s.margin.value == 0.0 || s.margin.value == 1.0 ==> Credit(user, s) == rest)
      && (s.version < 4 && s.margin.Some? && s.margin.value != 0.0 && s.margin.value != 1.0 ==>
            (Credit(user, s) == s.margin.value * rest <==> s.margin.value > 0.0 || left == 0.0))
  {
    if AppliesMargin(s) {
      var m, b, spend := s.margin.value, ValueOr(user.budget, 0.0), ValueOr(user.spend, 0.0);
      assert b * m - spend * m == m * (b - spend);
      ScalingKeepsSign(m, b - spend);
    }
  }

  /**
   How a migration answers: it raises for a user LiteLLM does not know and when a call raises, and
   does not apply to a user without a budget or with the unlimited one; then it changes nothing.
   */
  lemma MigrateAnswersExactly(l: Lite, u: Id, org: Id, s: Settings, n: nat, moved: set<string>)
    ensures var (answer, after) := Migrate(l, u, org, s, n, moved);
      var applies := u in l.users && l.users[u].budget.Some? && l.users[u].budget.value != 1000000000.0;
      && (answer == Completed <==> applies && n >= 5)
      && (answer == NotApplicable <==> u in l.users && !applies)
      && (answer == Raised <==> u !in l.users || (applies && n < 5))
      && (!applies ==> after == l)
  {
  }

  /** Migrating a migrated user changes nothing. */
  lemma MigrateTwice(l: Lite, u: Id, org: Id, s: Settings, moved: set<string>, n: nat, moved': set<string>)
    requires u in l.users
    ensures Migrate(Migrate(l, u, org, s, 5, moved).1, u, org, s, n, moved') == (NotApplicable, Migrate(l, u, org, s, 5, moved).1)
  {
    if !AlreadyMigrated(l.users[u]) {
      MigrateUnfolds(l, u, org, s, moved);
    }
  }

  // ----- a life between migration and downgrade -----

  /** The user spends in the team, or the budget of team and members is set, as a purchase does. */
  datatype Activity = Spend(amount: real) | SetBudget(budget: real)

  function Act(t: Team, u: Id, a: Activity): Team {
    match a
    case Spend(x) =>
      if u !in t.members then t
      else Team(t.budget, t.spend + x, t.members[u := t.members[u].(spend := t.members[u].spend + x)])
    case SetBudget(b) => Team(Some(b), t.spend, map m | m in t.members :: t.members[m].(budget := Some(b)))
  }

  function ActAll(t: Team, u: Id, activities: seq<Activity>): Team
    decreases |activities|
  {
    if activities == [] then t else ActAll(Act(t, u, activities[0]), u, activities[1..])
  }

  /** The membership mirrors the team. */
  predicate Mirrors(t: Team, u: Id) {
    u in t.members && t.budget.Some? && t.members[u] == Member(t.budget, t.spend)
  }

  /** What is left of a credit after the activities. */
  function Left(credit: real, spent: real, activities: seq<Activity>): real
    decreases |activities|
  {
    if activities == [] then credit - spent
    else match activities[0]
      case Spend(x) => Left(credit, spent + x, activities[1..])
      case SetBudget(b) => Left(b, spent, activities[1..])
  }

  lemma {:induction false} ActivityMirrors(t: Team, u: Id, activities: seq<Activity>)
    requires Mirrors(t, u)
    ensures Mirrors(ActAll(t, u, activities), u)
    ensures TeamCredit(ActAll(t, u, activities)) == Left(t.budget.value, t.spend, activities)
    decreases |activities|
  {
    if activities != [] {
      ActivityMirrors(Act(t, u, activities[0]), u, activities[1..]);
    }
  }

  function Spent(activities: seq<Activity>): real
    decreases |activities|
  {
    if activities == [] then 0.0
    else (if activities[0].Spend? then activities[0].amount else 0.0) + Spent(activities[1..])
  }

  /** Without purchases, the credit goes down by what was spent. */
  lemma {:induction false} LeftAfterSpending(credit: real, spent: real, activities: seq<Activity>)
    requires forall i :: 0 <= i < |activities| ==> activities[i].Spend?
    ensures Left(credit, spent, activities) == credit - spent - Spent(activities)
    decreases |activities|
  {
    if activities != [] {
      assert activities[0].Spend?;
      LeftAfterSpending(credit, spent + activities[0].amount, activities[1..]);
    }
  }

  function WithMember(t: Team, u: Id, budget: real): Team {
    if u in t.members then t else t.(members := t.members[u := Member(Some(budget), 0.0)])
  }

  /** Where a completed downgrade leads. */
  function Downgraded(l: Lite, u: Id, org: Id, home: Id, user: User, moved: set<string>): Lite
    requires home in l.teams
  {
    Lite(
      l.users[u := user],
      l.teams[home := WithMember(l.teams[home], u, ValueOr(user.budget, 0.0))] - {org},
      MoveKeys(l, u, Some(home), moved).keys)
  }

  /** The states between the calls of a downgrade. */
  lemma DowngradeUnfolds(l: Lite, u: Id, org: Id, home: Id, user: User, moved: set<string>)
    requires org in l.teams && home in l.teams && home != org
    ensures var h := WithMember(l.teams[home], u, ValueOr(user.budget, 0.0));
      var left := l.teams[org].(members := l.teams[org].members - {u});
      var keys := MoveKeys(l, u, Some(home), moved).keys;
      && DowngradeCalls(l, u, org, user, home, moved, 1) == Lite(l.users[u := user], l.teams, l.keys)
      && DowngradeCalls(l, u, org, user, home, moved, 2) == Lite(l.users[u := user], l.teams[home := h], l.keys)
      && DowngradeCalls(l, u, org, user, home, moved, 3) == Lite(l.users[u := user], l.teams[home := h], keys)
      && DowngradeCalls(l, u, org, user, home, moved, 4) == Lite(l.users[u := user], l.teams[home := h][org := left], keys)
      && DowngradeCalls(l, u, org, user, home, moved, 5) == Downgraded(l, u, org, home, user, moved)
  {
    var h := WithMember(l.teams[home], u, ValueOr(user.budget, 0.0));
    var left := l.teams[org].(members := l.teams[org].members - {u});
    var l1 := DowngradeCalls(l, u, org, user, home, moved, 1);
    assert l1 == DowngradeCall(DowngradeCalls(l, u, org, user, home, moved, 0), u, org, user, home, moved, 0);
    var l2 := DowngradeCalls(l, u, org, user, home, moved, 2);
    assert l2 == DowngradeCall(l1, u, org, user, home, moved, 1);
    assert l2.teams == l.teams[home := h];
    var l3 := DowngradeCalls(l, u, org, user, home, moved, 3);
    assert l3 == DowngradeCall(l2, u, org, user, home, moved, 2);
    assert l3.keys == MoveKeys(l, u, Some(home), moved).keys;
    var l4 := DowngradeCalls(l, u, org, user, home, moved, 4);
    assert l4 == DowngradeCall(l3, u, org, user, home, moved, 3);
    assert l4.teams - {org} == l.teams[home := h] - {org};
  }

  lemma {:induction false} UsersAfterDowngrade(l: Lite, u: Id, org: Id, user: User, home: Id, moved: set<string>, n: nat)
    requires n >= 1
    ensures DowngradeCalls(l, u, org, user, home, moved, n).users == l.users[u := user]
    decreases n
  {
    if n == 1 {
      assert DowngradeCalls(l, u, org, user, home, moved, 0) == l;
    } else {
      UsersAfterDowngrade(l, u, org, user, home, moved, n - 1);
    }
  }

  /**
   What a downgrade restores, in any state and however far it gets: budget and spend of the user's
   membership if the team is the user's own and reports it with a budget, else those of the team.
   */
  lemma RestoresExactly(l: Lite, u: Id, org: Id, home: Id, reports: bool, n: nat, moved: set<string>)
    requires org in l.teams && n >= 1
    ensures var after := Downgrade(l, u, org, home, reports, n, moved).1;
      var t := l.teams[org];
      var own := u == org && reports && u in t.members && t.members[u].budget.Some?;
      && after.users.Keys == l.users.Keys + {u}
      && after.users[u].budget == (if own then t.members[u].budget else if t.budget.Some? then t.budget else Some(0.0))
      && after.users[u].spend == Some(if own then t.members[u].spend else t.spend)
      && forall v :: v in l.users && v != u ==> after.users[v] == l.users[v]
  {
    UsersAfterDowngrade(l, u, org, Restored(l, u, org, reports), home, moved, Reached(l, home, n));
  }

  /**
   How a downgrade answers: it raises if the team is not there, if one of its five calls raises, or if
   there is no default team to add the user to.
   */
  lemma DowngradeAnswersExactly(l: Lite, u: Id, org: Id, home: Id, reports: bool, n: nat, moved: set<string>)
    ensures Downgrade(l, u, org, home, reports, n, moved).0
            == if org in l.teams && home in l.teams && n >= 5 then Completed else Raised
  {
  }

  /** Without a default team a downgrade gets no further than the user's budget: team, membership and keys stay. */
  lemma NoDefaultTeamStops(l: Lite, u: Id, org: Id, home: Id, reports: bool, n: nat, moved: set<string>)
    requires org in l.teams && home !in l.teams
    ensures var (answer, after) := Downgrade(l, u, org, home, reports, n, moved);
      && answer == Raised && after.teams == l.teams && after.keys == l.keys
      && (n == 0 ==> after == l)
      && (n > 0 ==> u in after.users && after == l.(users := l.users[u := after.users[u]]))
  {
    if n > 0 {
      var user := Restored(l, u, org, reports);
      assert DowngradeCalls(l, u, org, user, home, moved, 0) == l;
      assert DowngradeCalls(l, u, org, user, home, moved, 1) == UpdateUser(l, u, user);
    }
  }

  /** A downgrade hands the team's credit to the user; it does not matter which of the two budgets is reported. */
  lemma DowngradeHandsBack(l: Lite, u: Id, org: Id, home: Id, reports: bool, moved: set<string>)
    requires org in l.teams && Mirrors(l.teams[org], u) && home in l.teams && home != org
    ensures var (answer, after) := Downgrade(l, u, org, home, reports, 5, moved);
      && answer.Completed?
      && u in after.users && UserCredit(after.users[u]) == TeamCredit(l.teams[org])
      && org !in after.teams && home in after.teams && u in after.teams[home].members
      && (forall k :: k in l.keys && l.keys[k].owner == u && k in moved ==> k in after.keys && after.keys[k].team == Some(home))
      && (forall k :: k in l.keys && l.keys[k].owner != u ==> k in after.keys && after.keys[k] == l.keys[k])
  {
    DowngradeUnfolds(l, u, org, home, Restored(l, u, org, reports), moved);
  }

  /**
   From migration to a fresh team, through any spending and purchases, to the downgrade: the user has
   what was left of the credit.
   */
  lemma CreditRoundTrip(l: Lite, u: Id, org: Id, home: Id, s: Settings, reports: bool, activities: seq<Activity>,
                        moved: set<string>, moved': set<string>)
    requires u in l.users && !AlreadyMigrated(l.users[u]) && org !in l.teams && home in l.teams
    ensures var migrated := Migrate(l, u, org, s, 5, moved).1;
      && org in migrated.teams
      && var later := migrated.(teams := migrated.teams[org := ActAll(migrated.teams[org], u, activities)]);
         var back := Downgrade(later, u, org, home, reports, 5, moved').1;
         && u in back.users && UserCredit(back.users[u]) == Left(Credit(l.users[u], s), 0.0, activities)
         && ((forall i :: 0 <= i < |activities| ==> activities[i].Spend?)
             ==> UserCredit(back.users[u]) == Credit(l.users[u], s) - Spent(activities))
  {
    MigrateUnfolds(l, u, org, s, moved);
    var migrated := Migrate(l, u, org, s, 5, moved).1;
    ActivityMirrors(migrated.teams[org], u, activities);
    var later := migrated.(teams := migrated.teams[org := ActAll(migrated.teams[org], u, activities)]);
    DowngradeHandsBack(later, u, org, home, reports, moved');
    if forall i :: 0 <= i < |activities| ==> activities[i].Spend? {
      LeftAfterSpending(Credit(l.users[u], s), 0.0, activities);
    }
  }

  lemma ScalingMoves(m: real, x: real)
    requires m != 1.0 && x >= 0.0
    ensures Max(m * x, 0.0) == x <==> x == 0.0
  {
    if x > 0.0 {
      assert m * x != x;
    }
  }

  /**
   Migrating once more after the downgrade applies the margin once more: the second credit is what
   was left exactly when there is no margin to apply or nothing was left.
   */
  lemma MarginAppliesAgain(user: User, s: Settings)
    requires user.budget.Some? && UserCredit(user) >= 0.0
    ensures Credit(user, s) == UserCredit(user)
            <==> s.version >= 4 || s.margin.None? || s.margin.value == 0.0 || s.margin.value == 1.0 || UserCredit(user) == 0.0
  {
    if AppliesMargin(s) {
      var m, b, spend := s.margin.value, user.budget.value, ValueOr(user.spend, 0.0);
      assert b * m - spend * m == m * (b - spend);
      var left := b - spend;
      assert Credit(user, s) == Max(m * left, 0.0);
      ScalingMoves(m, left);
    }
  }

  // ----- retries -----

  predicate KeysInTeam(l: Lite, u: Id, org: Id, moved: set<string>) {
    forall k :: k in l.keys && l.keys[k].owner == u && k in moved ==> l.keys[k].team == Some(org)
  }

  /** Some of the user's keys can be moved before the others. */
  lemma MoveKeysInParts(l: Lite, u: Id, org: Id, moved: set<string>, moved': set<string>)
    requires moved <= moved'
    ensures MoveKeys(MoveKeys(l, u, Some(org), moved), u, Some(org), moved') == MoveKeys(l, u, Some(org), moved')
    ensures MoveKeys(l, u, Some(org), moved) == MoveKeys(l, u, Some(org), moved')
            <==> KeysInTeam(MoveKeys(l, u, Some(org), moved), u, org, moved')
  {
    var part, all := MoveKeys(l, u, Some(org), moved), MoveKeys(l, u, Some(org), moved');
    if KeysInTeam(part, u, org, moved') {
      forall k | k in l.keys ensures part.keys[k] == all.keys[k] {
      }
      assert part.keys == all.keys;
    }
    if part == all {
      forall k | k in part.keys && part.keys[k].owner == u && k in moved' ensures part.keys[k].team == Some(org) {
        assert all.keys[k].team == Some(org);
      }
    }
    assert MoveKeys(part, u, Some(org), moved').keys == all.keys;
  }

  /** A migration that raised before the user's budget was changed can be repeated. */
  lemma EarlyRetryCompletes(l: Lite, u: Id, org: Id, s: Settings, n: nat, moved: set<string>, moved': set<string>)
    requires u in l.users && !AlreadyMigrated(l.users[u]) && n <= 1
    ensures Migrate(Migrate(l, u, org, s, n, moved).1, u, org, s, 5, moved') == Migrate(l, u, org, s, 5, moved')
  {
    if n == 1 {
      var c := Credit(l.users[u], s);
      var broken := CreateTeam(l, org, c);
      assert MigrateCalls(l, u, org, c, moved, 1) == broken;
      assert CreateTeam(broken, org, c) == broken;
      MigrateUnfolds(l, u, org, s, moved');
      MigrateUnfolds(broken, u, org, s, moved');
    }
  }

  lemma LateRetryCompares(l2: Lite, l3: Lite, u: Id, org: Id, moved: set<string>, moved': set<string>)
    requires moved <= moved' && l3.keys == l2.keys && l3.users == l2.users
    ensures MoveKeys(l3, u, Some(org), moved') == l2 <==> l3 == l2 && KeysInTeam(l2, u, org, moved')
    ensures MoveKeys(l3, u, Some(org), moved') == l3 <==> KeysInTeam(l3, u, org, moved')
    ensures MoveKeys(l3, u, Some(org), moved') == MoveKeys(l3, u, Some(org), moved)
            <==> KeysInTeam(MoveKeys(l3, u, Some(org), moved), u, org, moved')
  {
    MoveKeysInParts(l3, u, org, {}, moved');
    MoveKeysInParts(l3, u, org, moved, moved');
    assert MoveKeys(l3, u, Some(org), {}).keys == l3.keys;
  }

  /**
   A retry after a migration that raised gets to where an uninterrupted one would have got, exactly
   when the user's budget had not been changed yet, or nothing was left to do for membership and keys.
   */
  lemma RetryCompletesExactly(l: Lite, u: Id, org: Id, s: Settings, n: nat, moved: set<string>, moved': set<string>)
    requires u in l.users && !AlreadyMigrated(l.users[u]) && moved <= moved'
    ensures var broken := Migrate(l, u, org, s, n, moved).1;
      Migrate(broken, u, org, s, 5, moved').1 == Migrate(l, u, org, s, 5, moved').1
      <==> n <= 1 || ((n >= 3 || (org in l.teams && u in l.teams[org].members)) && KeysInTeam(broken, u, org, moved'))
  {
    if n <= 1 {
      EarlyRetryCompletes(l, u, org, s, n, moved, moved');
      return;
    }
    var c := Credit(l.users[u], s);
    var l1 := CreateTeam(l, org, c);
    var l2 := UpdateUser(l1, u, l1.users[u].(budget := Some(UNLIMITED_BUDGET)));
    var l3 := AddUserToTeam(l2, u, org, c);
    assert MigrateCalls(l, u, org, c, moved, 1) == l1;
    assert MigrateCalls(l, u, org, c, moved, 2) == l2;
    assert MigrateCalls(l, u, org, c, moved, 3) == l3;
    assert MigrateCalls(l, u, org, c, moved, 4) == MoveKeys(l3, u, Some(org), moved);
    MigrateUnfolds(l, u, org, s, moved');
    LateRetryCompares(l2, l3, u, org, moved, moved');
    assert l3 == l2 <==> org in l.teams && u in l.teams[org].members;
  }

  /** Completing a downgrade from a state that some of its calls have already reached. */
  lemma RedoSame(l: Lite, broken: Lite, u: Id, org: Id, home: Id, user: User, moved: set<string>, moved': set<string>, h: Team, o: Team)
    requires org in l.teams && home in l.teams && home != org && moved <= moved'
    requires broken.users == l.users || broken.users == l.users[u := user]
    requires broken.keys == l.keys || broken.keys == MoveKeys(l, u, Some(home), moved).keys
    requires broken.teams == l.teams[home := h][org := o]
    requires h == l.teams[home] || h == WithMember(l.teams[home], u, ValueOr(user.budget, 0.0))
    ensures Downgraded(broken, u, org, home, user, moved') == Downgraded(l, u, org, home, user, moved')
  {
    MoveKeysInParts(l, u, home, moved, moved');
    assert MoveKeys(broken, u, Some(home), moved').keys == MoveKeys(l, u, Some(home), moved').keys;
    var final := WithMember(l.teams[home], u, ValueOr(user.budget, 0.0));
    assert WithMember(h, u, ValueOr(user.budget, 0.0)) == final;
    assert broken.teams[home := final] - {org} == l.teams[home := final] - {org};
  }

  /** Where a downgrade that raised has got to: the budget that would be restored is still the same. */
  lemma BrokenDowngrade(l: Lite, u: Id, org: Id, home: Id, reports: bool, n: nat, moved: set<string>, moved': set<string>)
    requires org in l.teams && Mirrors(l.teams[org], u) && home in l.teams && home != org && moved <= moved' && n < 5
    ensures var broken := Downgrade(l, u, org, home, reports, n, moved).1;
      && org in broken.teams && home in broken.teams
      && Restored(broken, u, org, reports) == Restored(l, u, org, reports)
      && Downgraded(broken, u, org, home, Restored(l, u, org, reports), moved')
         == Downgraded(l, u, org, home, Restored(l, u, org, reports), moved')
  {
    var user := Restored(l, u, org, reports);
    var broken := Downgrade(l, u, org, home, reports, n, moved).1;
    DowngradeUnfolds(l, u, org, home, user, moved);
    var h := if n < 2 then l.teams[home] else WithMember(l.teams[home], u, ValueOr(user.budget, 0.0));
    var o := if n < 4 then l.teams[org] else l.teams[org].(members := l.teams[org].members - {u});
    assert broken.teams == l.teams[home := h][org := o];
    RedoSame(l, broken, u, org, home, user, moved, moved', h, o);
  }

  /**
   A downgrade can be repeated after raising anywhere before the team is deleted, and ends where an
   uninterrupted one would have; once the team is gone it raises.
   */
  lemma DowngradeRetryCompletes(l: Lite, u: Id, org: Id, home: Id, reports: bool, n: nat, moved: set<string>, moved': set<string>)
    requires org in l.teams && Mirrors(l.teams[org], u) && home in l.teams && home != org && moved <= moved'
    ensures var broken := Downgrade(l, u, org, home, reports, n, moved).1;
      Downgrade(broken, u, org, home, reports, 5, moved')
      == if n < 5 then Downgrade(l, u, org, home, reports, 5, moved') else (Raised, broken)
  {
    var user := Restored(l, u, org, reports);
    DowngradeUnfolds(l, u, org, home, user, moved);
    if n < 5 {
      BrokenDowngrade(l, u, org, home, reports, n, moved, moved');
      DowngradeUnfolds(l, u, org, home, user, moved');
      DowngradeUnfolds(Downgrade(l, u, org, home, reports, n, moved).1, u, org, home, user, moved');
    }
  }

  // ----- the manager -----

  /** Naming keys that are not the user's moves nothing more. */
  lemma MoveOwnKeys(l: Lite, u: Id, team: Id, moved: set<string>)
    ensures var own := set k | k in l.keys && l.keys[k].owner == u && k in moved;
      MoveKeys(l, u, Some(team), own) == MoveKeys(l, u, Some(team), moved)
  {
    var own := set k | k in l.keys && l.keys[k].owner == u && k in moved;
    var x, y := MoveKeys(l, u, Some(team), own), MoveKeys(l, u, Some(team), moved);
    forall k | k in l.keys ensures x.keys[k] == y.keys[k] {
      assert l.keys[k].owner == u ==> (k in own <==> k in moved);
    }
    assert x.keys == y.keys;
  }

  lemma MoveOneMore(l: Lite, u: Id, team: Id, moved: set<string>, k: string)
    requires k in l.keys && l.keys[k].owner == u
    ensures var l' := MoveKeys(l, u, Some(team), moved);
      MoveKeys(l, u, Some(team), moved + {k}) == l'.(keys := l'.keys[k := l'.keys[k].(team := Some(team))])
  {
  }

  class LiteLlmManager {
    var lite: Lite

    constructor (lite: Lite)
      ensures this.lite == lite
    {
      this.lite := lite;
    }

    /** _update_user_keys: one call for each of the user's keys. */
    method UpdateUserKeys(u: Id, team: Id, moved: set<string>)
      modifies this
      ensures lite == MoveKeys(old(lite), u, Some(team), moved)
    {
      var todo := set k | k in lite.keys && lite.keys[k].owner == u && k in moved;
      ghost var all := todo;
      while todo != {}
        invariant todo <= all
        invariant lite == MoveKeys(old(lite), u, Some(team), all - todo)
        decreases |todo|
      {
        var k :| k in todo;
        MoveOneMore(old(lite), u, team, all - todo, k);
        assert all - (todo - {k}) == all - todo + {k};
        lite := lite.(keys := lite.keys[k := lite.keys[k].(team := Some(team))]);
        todo := todo - {k};
      }
      assert all - todo == all;
      MoveOwnKeys(old(lite), u, team, moved);
    }

    /** migrate_entries. */
    method MigrateEntries(u: Id, org: Id, s: Settings, n: nat, moved: set<string>) returns (answer: Answer)
      modifies this
      ensures (answer, lite) == Migrate(old(lite), u, org, s, n, moved)
    {
      if u !in lite.users {
        return Raised;
      }
      var user := lite.users[u];
      var budget, spend := ValueOr(user.budget, 0.0), ValueOr(user.spend, 0.0);
      if AppliesMargin(s) {
        budget, spend := budget * s.margin.value, spend * s.margin.value;
      }
      if user.budget.None? || user.budget.value == UNLIMITED_BUDGET {
        return NotApplicable;
      }
      var credit := Max(budget - spend, 0.0);
      assert credit == Credit(user, s);
      assert MigrateCalls(lite, u, org, credit, moved, 0) == lite;
      if n == 0 {
        return Raised;
      }
      lite := CreateTeam(lite, org, credit);
      assert lite == MigrateCalls(old(lite), u, org, credit, moved, 1);
      if n == 1 {
        return Raised;
      }
      lite := UpdateUser(lite, u, lite.users[u].(budget := Some(UNLIMITED_BUDGET)));
      assert lite == MigrateCalls(old(lite), u, org, credit, moved, 2);
      if n == 2 {
        return Raised;
      }
      lite := AddUserToTeam(lite, u, org, credit);
      assert lite == MigrateCalls(old(lite), u, org, credit, moved, 3);
      if n == 3 {
        return Raised;
      }
      UpdateUserKeys(u, org, moved);
      return if n == 4 then Raised else Completed;
    }

    /** downgrade_entries. */
    method DowngradeEntries(u: Id, org: Id, home: Id, reports: bool, n: nat, moved: set<string>) returns (answer: Answer)
      modifies this
      ensures (answer, lite) == Downgrade(old(lite), u, org, home, reports, n, moved)
    {
      if org !in lite.teams {
        return Raised;
      }
      var user := Restored(lite, u, org, reports);
      if n == 0 {
        return Raised;
      }
      lite := UpdateUser(lite, u, user);
      assert lite == DowngradeCalls(old(lite), u, org, user, home, moved, 1);
      if n == 1 || home !in lite.teams {
        return Raised;
      }
      lite := AddUserToTeam(lite, u, home, ValueOr(user.budget, 0.0));
      assert lite == DowngradeCalls(old(lite), u, org, user, home, moved, 2);
      if n == 2 {
        return Raised;
      }
      UpdateUserKeys(u, home, moved);
      assert lite == DowngradeCalls(old(lite), u, org, user, home, moved, 3);
      if n == 3 {
        return Raised;
      }
      lite := RemoveUserFromTeam(lite, u, org);
      assert lite == DowngradeCalls(old(lite), u, org, user, home, moved, 4);
      if n == 4 {
        return Raised;
      }
      lite := DeleteTeam(lite, org);
      return Completed;
    }
  }
}

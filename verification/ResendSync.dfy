/**
 The job that adds Keycloak users to a Resend audience, with a table of the emails it has handled.

 A user is marked before the contact is added and unmarked when adding fails.  Every call may fail
 without effect, or take effect and lose its answer; a run may stop after any user.
 */
module ResendSync {
  import opened Wrappers

  /** How the calls for one user go, as far as they are made. */
  datatype Turn = Turn(mark: Call, add: Call, remove: Call)

  datatype Stats = Stats(alreadySynced: nat, added: nat, skipped: nat, errors: nat)
  {
    function Sum(): nat { alreadySynced + added + skipped + errors }
  }

  /**
   A run in progress: the tracking table, the in-memory set, the emails whose addition was reported
   as successful and those for which Resend created a contact, both in order.
   */
  datatype Sync = Sync(
    table: set<string>, synced: set<string>, added: seq<string>, created: seq<string>, stats: Stats, aborted: bool)

  function Lower(s: string): (r: string)
    ensures |r| == |s|
  {
    seq(|s|, i requires 0 <= i < |s| => if 'A' <= s[i] <= 'Z' then s[i] - 'A' + 'a' else s[i])
  }

  // ----- one user -----

  /** Adding the contact of a user who is marked. */
  function AddMarked(s: Sync, e: string, turn: Turn): Sync {
    var table := s.table + {e};
    var created := if turn.add == Fails then s.created else s.created + [e];
    if turn.add == Answers
    then Sync(table, s.synced + {e}, s.added + [e], created, s.stats.(added := s.stats.added + 1), false)
    else if turn.remove == Answers
    then s.(table := table - {e}, created := created, stats := s.stats.(errors := s.stats.errors + 1))
    else s.(table := if turn.remove == Fails then table else table - {e}, created := created, aborted := true)
  }

  /** The body of the loop over the users; an empty email counts as none. */
  function SyncUser(s: Sync, email: string, turn: Turn, valid: string -> bool): Sync {
    var e := Lower(email);
    if email == "" then s
    else if e in s.synced then s.(stats := s.stats.(alreadySynced := s.stats.alreadySynced + 1))
    else if !valid(e) then s.(stats := s.stats.(skipped := s.stats.skipped + 1))
    else if turn.mark == Answers then AddMarked(s, e, turn)
    else s.(table := if turn.mark == Fails then s.table else s.table + {e}, stats := s.stats.(errors := s.stats.errors + 1))
  }

  /** The users from `i` on, until an exception ends the run. */
  function SyncFrom(s: Sync, listing: seq<string>, turns: seq<Turn>, valid: string -> bool, i: nat): Sync
    requires i <= |listing| <= |turns|
    decreases |listing| - i
  {
    if i == |listing| || s.aborted then s
    else SyncFrom(SyncUser(s, listing[i], turns[i], valid), listing, turns, valid, i + 1)
  }

  /** Lower-casing leaves no capital letter, is done once and for all, and changes nothing but the case. */
  lemma LowerExactly(s: string, i: nat)
    requires i < |s|
    ensures !('A' <= Lower(s)[i] <= 'Z') && Lower(Lower(s)) == Lower(s)
    ensures 'A' <= s[i] <= 'Z' ==> Lower(s)[i] as int == s[i] as int + 32
    ensures !('A' <= s[i] <= 'Z') ==> Lower(s)[i] == s[i]
  {
  }

  /** Which counter a user with an email raises, by one: exactly one of the four, unless the run breaks off. */
  lemma TurnCountedExactly(s: Sync, email: string, turn: Turn, valid: string -> bool)
    requires !s.aborted && email != ""
    ensures var before, after := s.stats, SyncUser(s, email, turn, valid).stats;
      var tried := Lower(email) !in s.synced && valid(Lower(email));
      && after.alreadySynced == before.alreadySynced + (if Lower(email) in s.synced then 1 else 0)
      && after.skipped == before.skipped + (if Lower(email) !in s.synced && !valid(Lower(email)) then 1 else 0)
      && after.added == before.added + (if tried && turn.mark == Answers && turn.add == Answers then 1 else 0)
      && after.errors == before.errors
         + (if tried && (turn.mark != Answers || (turn.add != Answers && turn.remove == Answers)) then 1 else 0)
    ensures SyncUser(s, email, turn, valid).aborted
            <==> Lower(email) !in s.synced && valid(Lower(email)) && turn.mark == Answers && turn.add != Answers && turn.remove != Answers
  {
  }

  // ----- what every step of a run keeps -----

  predicate Distinct(s: seq<string>) {
    forall i, j :: 0 <= i < j < |s| ==> s[i] != s[j]
  }

  /** Nothing was added twice, and what was added is tracked, in the table and in memory. */
  predicate AddedOnce(s: Sync) {
    Distinct(s.added) && forall e :: e in s.added ==> e in s.table && e in s.synced
  }

  lemma UserKeepsAddedOnce(s: Sync, email: string, turn: Turn, valid: string -> bool)
    requires AddedOnce(s)
    ensures AddedOnce(SyncUser(s, email, turn, valid))
    ensures s.synced <= SyncUser(s, email, turn, valid).synced
    ensures s.synced <= s.table ==> s.synced <= SyncUser(s, email, turn, valid).table
  {
  }

  /** The in-memory set never runs ahead of the table. */
  lemma SyncedIsTracked(s: Sync, email: string, turn: Turn, valid: string -> bool)
    requires s.synced <= s.table
    ensures SyncUser(s, email, turn, valid).synced <= SyncUser(s, email, turn, valid).table
  {
  }

  lemma {:induction false} SyncKeepsAddedOnce(s: Sync, listing: seq<string>, turns: seq<Turn>, valid: string -> bool, i: nat)
    requires AddedOnce(s) && s.synced <= s.table && i <= |listing| <= |turns|
    ensures var s' := SyncFrom(s, listing, turns, valid, i); AddedOnce(s') && s.synced <= s'.table && s'.synced >= s.synced
    decreases |listing| - i
  {
    if i < |listing| && !s.aborted {
      var next := SyncUser(s, listing[i], turns[i], valid);
      UserKeepsAddedOnce(s, listing[i], turns[i], valid);
      SyncedIsTracked(s, listing[i], turns[i], valid);
      SyncKeepsAddedOnce(next, listing, turns, valid, i + 1);
    }
  }

  /** The user gets as far as being marked. */
  predicate ReachesMark(s: Sync, email: string, valid: string -> bool) {
    email != "" && Lower(email) !in s.synced && valid(Lower(email))
  }

  /**
   At the head of the loop the in-memory set is the tracking table; a turn breaks that exactly when
   marking fails after its commit.
   */
  lemma SetMatchesTableExactly(s: Sync, email: string, turn: Turn, valid: string -> bool)
    requires s.synced == s.table && !SyncUser(s, email, turn, valid).aborted
    ensures SyncUser(s, email, turn, valid).synced == SyncUser(s, email, turn, valid).table
            <==> !(ReachesMark(s, email, valid) && turn.mark == LosesAnswer)
  {
    var after := SyncUser(s, email, turn, valid);
    if ReachesMark(s, email, valid) {
      assert Lower(email) !in s.table;
      if turn.mark == LosesAnswer {
        assert Lower(email) in after.table && Lower(email) !in after.synced;
      } else {
        assert s.table + {Lower(email)} - {Lower(email)} == s.table;
      }
    }
  }

  lemma {:induction false} SetMatchesTable(s: Sync, listing: seq<string>, turns: seq<Turn>, valid: string -> bool, i: nat)
    requires s.synced == s.table && i <= |listing| <= |turns|
    requires forall k :: 0 <= k < |turns| ==> turns[k].mark != LosesAnswer
    ensures var s' := SyncFrom(s, listing, turns, valid, i); !s'.aborted ==> s'.synced == s'.table
    decreases |listing| - i
  {
    if i < |listing| && !s.aborted {
      var next := SyncUser(s, listing[i], turns[i], valid);
      if !next.aborted {
        SetMatchesTableExactly(s, listing[i], turns[i], valid);
        SetMatchesTable(next, listing, turns, valid, i + 1);
      }
    }
  }

  /** The users with an email among those from `i` on. */
  function WithEmail(listing: seq<string>, i: nat): nat
    requires i <= |listing|
    decreases |listing| - i
  {
    if i == |listing| then 0 else (if listing[i] == "" then 0 else 1) + WithEmail(listing, i + 1)
  }

  /** A run that goes through accounts for every listed user with an email exactly once. */
  lemma {:induction false} EveryUserCounted(s: Sync, listing: seq<string>, turns: seq<Turn>, valid: string -> bool, i: nat)
    requires i <= |listing| <= |turns| && !SyncFrom(s, listing, turns, valid, i).aborted
    ensures var s' := SyncFrom(s, listing, turns, valid, i);
      s'.stats.Sum() == s.stats.Sum() + WithEmail(listing, i) && |s'.added| == |s.added| + (s'.stats.added - s.stats.added)
    decreases |listing| - i
  {
    if i < |listing| {
      EveryUserCounted(SyncUser(s, listing[i], turns[i], valid), listing, turns, valid, i + 1);
    }
  }

  // ----- any number of runs -----

  /** What lasts from run to run. */
  datatype Job = Job(table: set<string>, added: seq<string>, created: seq<string>)

  /** A run: the contacts it backfills, and the users it gets to before it is stopped. */
  datatype Run = Run(contacts: seq<string>, listing: seq<string>, turns: seq<Turn>)

  function Backfilled(table: set<string>, contacts: seq<string>): set<string> {
    table + set i | 0 <= i < |contacts| :: Lower(contacts[i])
  }

  function Start(job: Job, r: Run): Sync {
    var table := Backfilled(job.table, r.contacts);
    Sync(table, table, job.added, job.created, Stats(0, 0, 0, 0), false)
  }

  function Perform(job: Job, r: Run, valid: string -> bool): Job
    requires |r.listing| <= |r.turns|
  {
    var s := SyncFrom(Start(job, r), r.listing, r.turns, valid, 0);
    Job(s.table, s.added, s.created)
  }

  /** A run starts from what is tracked already or listed as a contact, with counters at 0. */
  lemma StartsFresh(job: Job, r: Run)
    ensures var s := Start(job, r);
      && (forall e :: e in s.table <==> e in job.table || exists c :: c in r.contacts && Lower(c) == e)
      && s.synced == s.table && s.stats.Sum() == 0 && s.stats.added == 0 && s.stats.errors == 0 && s.stats.skipped == 0 && !s.aborted
  {
  }

  function PerformAll(job: Job, runs: seq<Run>, valid: string -> bool): Job
    requires forall k :: 0 <= k < |runs| ==> |runs[k].listing| <= |runs[k].turns|
    decreases |runs|
  {
    if runs == [] then job else PerformAll(Perform(job, runs[0], valid), runs[1..], valid)
  }

  predicate Tracks(job: Job) {
    Distinct(job.added) && forall e :: e in job.added ==> e in job.table
  }

  /** Over any number of runs no email is successfully added twice, and an email once tracked stays tracked. */
  lemma {:induction false} NeverAddedTwice(job: Job, runs: seq<Run>, valid: string -> bool)
    requires Tracks(job) && forall k :: 0 <= k < |runs| ==> |runs[k].listing| <= |runs[k].turns|
    ensures var job' := PerformAll(job, runs, valid); Tracks(job') && job.table <= job'.table
    decreases |runs|
  {
    if runs != [] {
      assert |runs[0].listing| <= |runs[0].turns|;
      SyncKeepsAddedOnce(Start(job, runs[0]), runs[0].listing, runs[0].turns, valid, 0);
      NeverAddedTwice(Perform(job, runs[0], valid), runs[1..], valid);
    }
  }

  function Count(s: seq<string>, e: string): nat {
    multiset(s)[e]
  }

  lemma CountOthers(s: seq<string>, x: string, e: string)
    requires x != e
    ensures Count(s + [x], e) == Count(s, e)
  {
  }

  lemma UserLeavesOthersAlone(s: Sync, email: string, turn: Turn, valid: string -> bool, e: string)
    requires e in s.synced
    ensures var s' := SyncUser(s, email, turn, valid);
      && e in s'.synced && (e in s'.table <==> e in s.table)
      && Count(s'.added, e) == Count(s.added, e) && Count(s'.created, e) == Count(s.created, e)
  {
    if Lower(email) != e {
      CountOthers(s.added, Lower(email), e);
      CountOthers(s.created, Lower(email), e);
    }
  }

  /** A run leaves an email alone that is in the in-memory set. */
  lemma {:induction false} SyncedIsLeftAlone(s: Sync, listing: seq<string>, turns: seq<Turn>, valid: string -> bool, i: nat, e: string)
    requires i <= |listing| <= |turns| && e in s.synced
    ensures var s' := SyncFrom(s, listing, turns, valid, i);
      Count(s'.added, e) == Count(s.added, e) && Count(s'.created, e) == Count(s.created, e)
      && (e in s'.table <==> e in s.table)
    decreases |listing| - i
  {
    if i < |listing| && !s.aborted {
      UserLeavesOthersAlone(s, listing[i], turns[i], valid, e);
      SyncedIsLeftAlone(SyncUser(s, listing[i], turns[i], valid), listing, turns, valid, i + 1, e);
    }
  }

  /** No later run touches an email that is in the table, even if its contact was never added. */
  lemma {:induction false} TrackedIsLeftAlone(job: Job, runs: seq<Run>, valid: string -> bool, e: string)
    requires e in job.table && forall k :: 0 <= k < |runs| ==> |runs[k].listing| <= |runs[k].turns|
    ensures var job' := PerformAll(job, runs, valid);
      e in job'.table && Count(job'.added, e) == Count(job.added, e) && Count(job'.created, e) == Count(job.created, e)
    decreases |runs|
  {
    if runs != [] {
      assert |runs[0].listing| <= |runs[0].turns|;
      SyncedIsLeftAlone(Start(job, runs[0]), runs[0].listing, runs[0].turns, valid, 0, e);
      TrackedIsLeftAlone(Perform(job, runs[0], valid), runs[1..], valid, e);
    }
  }

  // ----- contacts that Resend creates -----

  /** If no addition loses its answer, the contacts created are those reported, so none is created twice. */
  lemma {:induction false} CreatedIsAdded(s: Sync, listing: seq<string>, turns: seq<Turn>, valid: string -> bool, i: nat)
    requires i <= |listing| <= |turns| && s.created == s.added
    requires forall k :: 0 <= k < |turns| ==> turns[k].add != LosesAnswer
    ensures var s' := SyncFrom(s, listing, turns, valid, i); s'.created == s'.added
    decreases |listing| - i
  {
    if i < |listing| && !s.aborted {
      CreatedIsAdded(SyncUser(s, listing[i], turns[i], valid), listing, turns, valid, i + 1);
    }
  }

  /** A contact that was created is forgotten exactly when the answer was lost and the removal took effect. */
  lemma ForgottenExactly(s: Sync, email: string, turn: Turn, valid: string -> bool)
    requires ReachesMark(s, email, valid) && turn.mark == Answers && turn.add != Fails
    ensures var s' := SyncUser(s, email, turn, valid);
      && s'.created == s.created + [Lower(email)]
      && (Lower(email) !in s'.table <==> turn.add == LosesAnswer && turn.remove != Fails)
  {
  }

  /** Such a contact is created again by the next run, unless the backfill finds it in the audience. */
  lemma CreatedAgainExactly(job: Job, email: string, contacts: seq<string>, turn: Turn, valid: string -> bool)
    requires email != "" && valid(Lower(email)) && Lower(email) !in job.table && turn == Turn(Answers, Answers, Answers)
    ensures Perform(job, Run(contacts, [email], [turn]), valid).created
            == if exists c :: c in contacts && Lower(c) == Lower(email) then job.created else job.created + [Lower(email)]
  {
    var r := Run(contacts, [email], [turn]);
    var s := Start(job, r);
    assert SyncFrom(s, [email], [turn], valid, 0) == SyncFrom(SyncUser(s, email, turn, valid), [email], [turn], valid, 1);
    if c :| c in contacts && Lower(c) == Lower(email) {
      var i :| 0 <= i < |contacts| && contacts[i] == c;
      assert Lower(email) in s.table;
    }
  }

  // ----- the job -----

  class ResendSyncedUserStore {
    var table: set<string>

    constructor (table: set<string>)
      ensures this.table == table
    {
      this.table := table;
    }

    /** mark_user_synced: insert on conflict do nothing. */
    method MarkUserSynced(email: string, call: Call) returns (raised: bool)
      modifies this
      ensures raised == (call != Answers)
      ensures table == if call == Fails then old(table) else old(table) + {Lower(email)}
    {
      if call != Fails && Lower(email) !in table {
        table := table + {Lower(email)};
      }
      raised := call != Answers;
    }

    /** remove_synced_user. */
    method RemoveSyncedUser(email: string, call: Call) returns (raised: bool)
      modifies this
      ensures raised == (call != Answers)
      ensures table == if call == Fails then old(table) else old(table) - {Lower(email)}
    {
      if call != Fails {
        table := table - {Lower(email)};
      }
      raised := call != Answers;
    }
  }

  lemma LowerTwice(s: string)
    ensures Lower(Lower(s)) == Lower(s)
  {
  }

  class Syncer {
    const store: ResendSyncedUserStore
    const valid: string -> bool
    var synced: set<string>
    var added: seq<string>
    var created: seq<string>
    var stats: Stats

    constructor (store: ResendSyncedUserStore, valid: string -> bool)
      ensures this.store == store && this.valid == valid
      ensures synced == {} && added == [] && created == [] && stats == Stats(0, 0, 0, 0)
    {
      this.store := store;
      this.valid := valid;
      synced, added, created, stats := {}, [], [], Stats(0, 0, 0, 0);
    }

    ghost function State(aborted: bool): Sync
      reads this, store
    {
      Sync(store.table, synced, added, created, stats, aborted)
    }

    /** _backfill_existing_resend_contacts, as far as it gets. */
    method Backfill(contacts: seq<string>)
      modifies store
      ensures store.table == Backfilled(old(store.table), contacts)
    {
      var alreadySynced := store.table;
      var i := 0;
      while i < |contacts|
        invariant i <= |contacts|
        invariant store.table == Backfilled(old(store.table), contacts[..i])
      {
        assert Backfilled(old(store.table), contacts[..i + 1]) == Backfilled(old(store.table), contacts[..i]) + {Lower(contacts[i])} by {
          assert contacts[..i + 1][i] == contacts[i];
          assert forall k :: 0 <= k < i ==> contacts[..i + 1][k] == contacts[..i][k];
        }
        if Lower(contacts[i]) !in alreadySynced {
          var ignored := store.MarkUserSynced(contacts[i], Answers);
        }
        i := i + 1;
      }
      assert contacts[..i] == contacts;
    }

    /** One user of a batch. */
    method User(email: string, turn: Turn) returns (aborted: bool)
      modifies this, store
      ensures State(aborted) == SyncUser(old(State(false)), email, turn, valid)
    {
      if email == "" {
        return false;
      }
      var e := Lower(email);
      LowerTwice(email);
      if e in synced {
        stats := stats.(alreadySynced := stats.alreadySynced + 1);
        return false;
      }
      if !valid(e) {
        stats := stats.(skipped := stats.skipped + 1);
        return false;
      }
      var raised := store.MarkUserSynced(e, turn.mark);
      if raised {
        stats := stats.(errors := stats.errors + 1);
        return false;
      }
      if turn.add != Fails {
        created := created + [e];
      }
      if turn.add != Answers {
        raised := store.RemoveSyncedUser(e, turn.remove);
        if raised {
          return true;
        }
        stats := stats.(errors := stats.errors + 1);
        return false;
      }
      added := added + [e];
      synced := synced + {e};
      stats := stats.(added := stats.added + 1);
      return false;
    }

    /** The users of one batch. */
    method Batch(listing: seq<string>, turns: seq<Turn>, offset: nat, end: nat) returns (aborted: bool)
      requires offset <= end <= |listing| <= |turns|
      modifies this, store
      ensures SyncFrom(old(State(false)), listing, turns, valid, offset)
              == if aborted then State(true) else SyncFrom(State(false), listing, turns, valid, end)
    {
      aborted := false;
      var i := offset;
      while i < end
        invariant offset <= i <= end && !aborted
        invariant SyncFrom(old(State(false)), listing, turns, valid, offset) == SyncFrom(State(false), listing, turns, valid, i)
      {
        aborted := User(listing[i], turns[i]);
        i := i + 1;
        if aborted {
          return;
        }
      }
    }

    /** sync_users_to_resend: batch by batch, it gets to all the users listed. */
    method SyncUsersToResend(contacts: seq<string>, listing: seq<string>, batchSize: nat, turns: seq<Turn>) returns (aborted: bool)
      requires |listing| <= |turns| && batchSize > 0 && stats == Stats(0, 0, 0, 0)
      modifies this, store
      ensures State(aborted) == SyncFrom(Start(old(Job(store.table, added, created)), Run(contacts, listing, turns)), listing, turns, valid, 0)
    {
      Backfill(contacts);
      synced := store.table;
      aborted := false;
      ghost var start := State(false);
      var offset := 0;
      while offset < |listing|
        invariant SyncFrom(start, listing, turns, valid, 0)
                  == SyncFrom(State(false), listing, turns, valid, if offset < |listing| then offset else |listing|)
      {
        aborted := Batch(listing, turns, offset, if offset + batchSize < |listing| then offset + batchSize else |listing|);
        if aborted {
          return;
        }
        offset := offset + batchSize;
      }
    }
  }
}

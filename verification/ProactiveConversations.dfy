/**
 Proactive conversations: the workflow runs of a commit are collected per repository, pull request
 and commit, and handed out once, when none is pending any more and one has failed.

 The row lock serializes the events of a key; events of different keys interleave freely.
 */
module ProactiveConversations {
  import opened Wrappers

  datatype Key = Key(repo: string, pr: int, commit: string)
  datatype Status = FAILURE | COMPLETED | PENDING
  datatype WorkflowRun = WorkflowRun(id: string, name: string, status: Status)
  type Runs = map<string, WorkflowRun>

  datatype Record = Record(runs: Runs, sent: bool)
  type Table = map<Key, Record>

  /** An incoming run, and what get_all_workflows would answer at that moment; None when it raises. */
  datatype Event = Event(key: Key, run: WorkflowRun, snapshot: Option<Runs>)

  predicate Complete(runs: Runs) {
    && (forall id :: id in runs ==> runs[id].status != PENDING)
    && (exists id :: id in runs && runs[id].status == FAILURE)
  }

  /** A group is complete exactly when every run has ended and not all of them went well. */
  lemma CompleteExactly(runs: Runs)
    ensures Complete(runs) <==>
      && (forall id :: id in runs ==> runs[id].status == COMPLETED || runs[id].status == FAILURE)
      && !(forall id :: id in runs ==> runs[id].status == COMPLETED)
  {
    if Complete(runs) {
      var id :| id in runs && runs[id].status == FAILURE;
      assert runs[id].status != COMPLETED;
    }
  }

  /** store_workflow_information: the group to act on, if any, and the new table. */
  function Store(t: Table, e: Event): (Option<Runs>, Table) {
    if e.key in t && t[e.key].sent then (None, t)
    else if e.key !in t && e.snapshot.None? then (None, t)
    else
      var runs := (if e.key in t then t[e.key].runs else e.snapshot.value)[e.run.id := e.run];
      (if Complete(runs) then Some(runs) else None, t[e.key := Record(runs, Complete(runs))])
  }

  function After(events: seq<Event>): Table
    decreases |events|
  {
    if events == [] then map[] else Store(After(events[..|events| - 1]), events[|events| - 1]).1
  }

  // ----- what the events amount to -----

  /** The runs of a key: the snapshot at its first event, overlaid with all incoming runs so far. */
  function Overlay(events: seq<Event>, key: Key): Option<Runs>
    decreases |events|
  {
    if events == [] then None
    else
      var earlier := Overlay(events[..|events| - 1], key);
      var e := events[|events| - 1];
      if e.key != key || (earlier.None? && e.snapshot.None?) then earlier
      else Some((if earlier.Some? then earlier.value else e.snapshot.value)[e.run.id := e.run])
  }

  /** After the first n events the overlay has no pending run and a failed one. */
  predicate CompleteAt(events: seq<Event>, n: nat, key: Key)
    requires n <= |events|
  {
    var runs := Overlay(events[..n], key);
    runs.Some? && Complete(runs.value)
  }

  predicate FirstCompleteAt(events: seq<Event>, n: nat, key: Key)
    requires n <= |events|
  {
    CompleteAt(events, n, key) && forall k :: 0 <= k < n ==> !CompleteAt(events, k, key)
  }

  predicate NeverComplete(events: seq<Event>, key: Key) {
    forall n :: 0 <= n <= |events| ==> !CompleteAt(events, n, key)
  }

  lemma Earlier(events: seq<Event>, e: Event, key: Key)
    ensures forall n :: 0 <= n <= |events| ==> (CompleteAt(events + [e], n, key) <==> CompleteAt(events, n, key))
    ensures NeverComplete(events + [e], key) <==> NeverComplete(events, key) && !CompleteAt(events + [e], |events| + 1, key)
  {
    forall n | 0 <= n <= |events| ensures (events + [e])[..n] == events[..n] {
    }
    assert forall n :: 0 <= n <= |events| ==> (CompleteAt(events + [e], n, key) <==> CompleteAt(events, n, key));
  }

  /** The overlay stays the same from the moment after `n` events on. */
  predicate FrozenAt(events: seq<Event>, n: nat, key: Key)
    requires n <= |events|
  {
    && FirstCompleteAt(events, n, key)
    && key in After(events)
    && After(events)[key] == Record(Overlay(events[..n], key).value, true)
  }

  /**
   The stored runs are the overlay of all events up to the one that completes them, and stay as they
   were then.
   */
  lemma {:induction false} StoredRuns(events: seq<Event>, key: Key)
    ensures NeverComplete(events, key) ==>
              && (key in After(events) <==> Overlay(events, key).Some?)
              && (key in After(events) ==> After(events)[key] == Record(Overlay(events, key).value, false))
    ensures !NeverComplete(events, key) ==> exists n: nat :: n <= |events| && FrozenAt(events, n, key)
    decreases |events|
  {
    if events == [] {
      assert forall n :: 0 <= n <= |events| ==> events[..n] == [];
    } else {
      var before, e := events[..|events| - 1], events[|events| - 1];
      assert events == before + [e] && events[..|events|] == events;
      StoredRuns(before, key);
      Earlier(before, e, key);
      if !NeverComplete(before, key) {
        var n: nat :| n <= |before| && FrozenAt(before, n, key);
        assert events[..n] == before[..n];
        assert FrozenAt(events, n, key);
      } else if CompleteAt(events, |events|, key) {
        assert before[..|before|] == before && !CompleteAt(before, |before|, key);
        assert FrozenAt(events, |events|, key);
      }
    }
  }

  /**
   A group is returned for exactly the first event after which the overlay is complete, and it is
   that overlay.
   */
  lemma ReturnedExactly(events: seq<Event>, e: Event)
    ensures var group := Store(After(events), e).0;
      && (group.Some? <==> FirstCompleteAt(events + [e], |events| + 1, e.key))
      && (group.Some? ==> group == Overlay(events + [e], e.key))
  {
    var all := events + [e];
    assert all[..|events|] == events && all[..|events| + 1] == all;
    StoredRuns(events, e.key);
    Earlier(events, e, e.key);
    if NeverComplete(events, e.key) {
      assert events[..|events|] == events && !CompleteAt(events, |events|, e.key);
    } else {
      var n: nat :| n <= |events| && FrozenAt(events, n, e.key);
      assert CompleteAt(all, n, e.key);
    }
  }

  /** Over any run, no key is handed out twice. */
  lemma HandedOutOnce(events: seq<Event>, i: nat, j: nat)
    requires i < j < |events| && events[i].key == events[j].key
    requires Store(After(events[..i]), events[i]).0.Some?
    ensures Store(After(events[..j]), events[j]).0.None?
  {
    var key := events[i].key;
    ReturnedExactly(events[..i], events[i]);
    ReturnedExactly(events[..j], events[j]);
    var upToJ := events[..j] + [events[j]];
    assert events[..i] + [events[i]] == events[..i + 1];
    assert upToJ[..i + 1] == events[..i + 1] && events[..i + 1][..i + 1] == events[..i + 1];
    assert CompleteAt(upToJ, i + 1, key);
  }

  // ----- independence of the keys -----

  function OfKey(events: seq<Event>, key: Key): seq<Event>
    decreases |events|
  {
    if events == [] then []
    else
      var earlier := OfKey(events[..|events| - 1], key);
      if events[|events| - 1].key == key then earlier + [events[|events| - 1]] else earlier
  }

  predicate Agree(t: Table, t': Table, key: Key) {
    (key in t <==> key in t') && (key in t ==> t[key] == t'[key])
  }

  lemma StoreIsLocal(t: Table, t': Table, e: Event, key: Key)
    requires Agree(t, t', key)
    ensures e.key != key ==> Agree(Store(t, e).1, t', key)
    ensures e.key == key ==> Store(t, e).0 == Store(t', e).0 && Agree(Store(t, e).1, Store(t', e).1, key)
  {
  }

  /** However the events of different keys interleave, each key fares as if it were alone. */
  lemma {:induction false} KeysAreIndependent(events: seq<Event>, key: Key)
    ensures Agree(After(events), After(OfKey(events, key)), key)
    decreases |events|
  {
    if events != [] {
      var before, e := events[..|events| - 1], events[|events| - 1];
      var alone := OfKey(before, key);
      KeysAreIndependent(before, key);
      StoreIsLocal(After(before), After(alone), e, key);
      assert (alone + [e])[..|alone|] == alone;
    }
  }

  // ----- the store -----

  class ProactiveConversationStore {
    var table: Table

    constructor ()
      ensures table == map[]
    {
      table := map[];
    }

    /** store_workflow_information, in its transaction. */
    method StoreWorkflowInformation(e: Event) returns (group: Option<Runs>)
      modifies this
      ensures (group, table) == Store(old(table), e)
    {
      var shouldSend := false;
      group := None;
      if e.key in table && table[e.key].sent {
        return;
      }
      if e.key !in table && e.snapshot.None? {
        return;
      }
      var runs := if e.key !in table then e.snapshot.value else table[e.key].runs;
      runs := runs[e.run.id := e.run];
      var isNonePending := forall id :: id in runs ==> runs[id].status != PENDING;
      if isNonePending {
        shouldSend := exists id :: id in runs && runs[id].status == FAILURE;
      }
      if shouldSend {
        group := Some(runs);
      }
      table := table[e.key := Record(runs, shouldSend)];
    }
  }
}

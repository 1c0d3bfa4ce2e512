/** Replaying a recorded trajectory: which of its actions are played, and in which order. */
module ReplayManager {
  import opened Wrappers
  import opened ControllerModel

  predicate IsAction(e: Event) {
    !IsObservation(e)
  }

  /** Environment events and null observations are not replayed. */
  predicate IsReplayed(e: Event) {
    !e.head.source.FromEnvironment? && !e.NullObservation?
  }

  function Select(events: seq<Event>, keep: Event -> bool): (kept: seq<Event>)
    ensures forall e :: e in kept <==> e in events && keep(e)
  {
    if events == [] then []
    else Select(events[..|events| - 1], keep) + (if keep(events[|events| - 1]) then [events[|events| - 1]] else [])
  }

  function Actions(events: seq<Event>): seq<Event> {
    Select(events, IsAction)
  }

  function Unwaiting(e: Event): Event {
    if e.Message? then e.(waitForResponse := false) else e
  }

  /** Every event but the last, with its wait for a response cleared. */
  function ClearWaits(events: seq<Event>): (cleared: seq<Event>)
    ensures |cleared| == |events|
    ensures forall i :: 0 <= i < |events| - 1 ==> cleared[i] == Unwaiting(events[i])
    ensures events != [] ==> cleared[|events| - 1] == events[|events| - 1]
  {
    seq(|events|, i requires 0 <= i < |events| => if i < |events| - 1 then Unwaiting(events[i]) else events[i])
  }

  lemma {:induction false} SelectJoin(a: seq<Event>, b: seq<Event>, keep: Event -> bool)
    ensures Select(a + b, keep) == Select(a, keep) + Select(b, keep)
    decreases |b|
  {
    if b == [] {
      assert a + b == a;
    } else {
      assert (a + b)[..|a + b| - 1] == a + b[..|b| - 1] && (a + b)[|a + b| - 1] == b[|b| - 1];
      SelectJoin(a, b[..|b| - 1], keep);
    }
  }

  lemma SelectOne(e: Event, keep: Event -> bool)
    ensures Select([e], keep) == if keep(e) then [e] else []
  {
    assert [e][..0] == [];
  }

  /** Selections by predicates that agree. */
  lemma {:induction false} SelectAgrees(events: seq<Event>, keep: Event -> bool, keep': Event -> bool)
    requires forall e :: e in events ==> keep(e) == keep'(e)
    ensures Select(events, keep) == Select(events, keep')
    decreases |events|
  {
    if events != [] {
      SelectAgrees(events[..|events| - 1], keep, keep');
    }
  }

  /** Clearing the waits changes no event but a message that waits, and of the last event nothing. */
  lemma WaitsClearedExactly(events: seq<Event>, i: nat)
    requires i < |events|
    ensures ClearWaits(events)[i] ==
      if i < |events| - 1 && events[i].Message? && events[i].waitForResponse then Message(events[i].head, false) else events[i]
  {
  }

  /** The actions of the replay are the trajectory's own actions, less those of the environment. */
  lemma {:induction false} KeptActions(events: seq<Event>)
    ensures Actions(Select(events, IsReplayed)) == Select(Actions(events), IsReplayed)
    decreases |events|
  {
    if events != [] {
      var init, last := events[..|events| - 1], events[|events| - 1];
      KeptActions(init);
      SelectJoin(Select(init, IsReplayed), if IsReplayed(last) then [last] else [], IsAction);
      SelectJoin(Actions(init), if IsAction(last) then [last] else [], IsReplayed);
      SelectOne(last, IsAction);
      SelectOne(last, IsReplayed);
    }
  }

  /** What of a trajectory is replayed: every event that is neither the environment's nor a null observation, and no other. */
  lemma ReplayedExactly(events: seq<Event>)
    ensures forall e :: e in Select(events, IsReplayed) <==> e in events && e.head.source != FromEnvironment && !e.NullObservation?
    ensures Actions(Select(events, IsReplayed)) == Select(Actions(events), (e: Event) => e.head.source != FromEnvironment)
  {
    KeptActions(events);
    SelectAgrees(Actions(events), IsReplayed, (e: Event) => e.head.source != FromEnvironment);
  }

  /** Clearing the waits neither adds, removes nor reorders an action. */
  lemma {:induction false} ClearedActions(events: seq<Event>, upTo: nat)
    requires upTo <= |events|
    ensures |Actions(ClearWaits(events)[..upTo])| == |Actions(events[..upTo])|
    ensures forall i :: 0 <= i < |Actions(events[..upTo])| ==>
      Unwaiting(Actions(ClearWaits(events)[..upTo])[i]) == Unwaiting(Actions(events[..upTo])[i])
    decreases upTo
  {
    if upTo > 0 {
      ClearedActions(events, upTo - 1);
      assert ClearWaits(events)[..upTo][..upTo - 1] == ClearWaits(events)[..upTo - 1];
      assert events[..upTo][..upTo - 1] == events[..upTo - 1];
    }
  }

  /** The actions from position i on begin with the event at i, if that is an action. */
  lemma ActionsFrom(events: seq<Event>, i: nat)
    requires i < |events|
    ensures Actions(events[i..]) == if IsAction(events[i]) then [events[i]] + Actions(events[i + 1..]) else Actions(events[i + 1..])
  {
    assert events[i..] == [events[i]] + events[i + 1..];
    SelectJoin([events[i]], events[i + 1..], IsAction);
    SelectOne(events[i], IsAction);
  }

  class ReplayManager {
    var replayEvents: seq<Event>
    var replayMode: bool
    var replayIndex: nat

    ghost predicate Valid()
      reads this
    {
      replayIndex <= |replayEvents| && (replayMode <==> replayEvents != [])
    }

    /** The actions still to be played. */
    ghost function Remaining(): seq<Event>
      requires Valid()
      reads this
    {
      Actions(replayEvents[replayIndex..])
    }

    constructor (events: Option<seq<Event>>)
      ensures Valid() && replayIndex == 0
      ensures replayEvents == ClearWaits(Select(if events.Some? then events.value else [], IsReplayed))
    {
      var given := if events.Some? then events.value else [];
      var kept: seq<Event> := [];
      var i := 0;
      while i < |given|
        invariant 0 <= i <= |given|
        invariant kept == Select(given[..i], IsReplayed)
      {
        assert given[..i + 1][..i] == given[..i];
        if given[i].head.source.FromEnvironment? || given[i].NullObservation? {
        } else {
          kept := kept + [given[i]];
        }
        i := i + 1;
      }
      assert given[..i] == given;
      ghost var selected := kept;
      var index := 0;
      while index < |kept| - 1
        invariant |kept| == |selected| && 0 <= index && (index == 0 || index < |selected|)
        invariant forall j :: 0 <= j < index ==> kept[j] == Unwaiting(selected[j])
        invariant forall j :: index <= j < |selected| ==> kept[j] == selected[j]
      {
        if kept[index].Message? && kept[index].waitForResponse {
          kept := kept[index := kept[index].(waitForResponse := false)];
        }
        index := index + 1;
      }
      assert kept == ClearWaits(selected);
      replayEvents, replayMode, replayIndex := kept, kept != [], 0;
    }

    predicate Replayable()
      reads this
    {
      replayIndex < |replayEvents| && IsAction(replayEvents[replayIndex])
    }

    /** should_replay: move to the next action, and say whether there is one. */
    method ShouldReplay() returns (more: bool)
      requires Valid()
      modifies this`replayIndex
      ensures Valid() && Remaining() == old(Remaining())
      ensures more <==> Remaining() != []
      ensures more <==> Replayable()
      ensures replayIndex >= old(replayIndex) && replayEvents == old(replayEvents)
    {
      if !replayMode {
        assert replayEvents[replayIndex..] == [];
        return false;
      }
      while replayIndex < |replayEvents| && !Replayable()
        invariant Valid() && Remaining() == old(Remaining()) && replayIndex >= old(replayIndex)
        decreases |replayEvents| - replayIndex
      {
        ActionsFrom(replayEvents, replayIndex);
        replayIndex := replayIndex + 1;
      }
      if Replayable() {
        ActionsFrom(replayEvents, replayIndex);
      } else {
        assert replayEvents[replayIndex..] == [];
      }
      more := Replayable();
    }

    /** step: the callers have asked should_replay first, which makes its assertion true. */
    method Step() returns (action: Event)
      requires Valid() && Replayable()
      modifies this`replayIndex
      ensures Valid() && old(Remaining()) == [action] + Remaining()
      ensures replayIndex == old(replayIndex) + 1
    {
      ActionsFrom(replayEvents, replayIndex);
      action := replayEvents[replayIndex];
      assert Remaining() == [action] + Select(replayEvents[replayIndex + 1..], IsAction);
      replayIndex := replayIndex + 1;
    }

    /** The controller's use of the replay, step after step, until there is nothing left to replay. */
    method ReplayAll() returns (played: seq<Event>)
      requires Valid()
      modifies this`replayIndex
      ensures Valid() && played == old(Remaining()) && Remaining() == []
    {
      played := [];
      var more := ShouldReplay();
      while more
        invariant Valid() && played + Remaining() == old(Remaining())
        invariant more <==> Remaining() != []
        invariant more <==> Replayable()
        decreases |replayEvents| - replayIndex, more
      {
        ghost var before, remaining := played, Remaining();
        var action := Step();
        played := played + [action];
        assert before + remaining == played + Remaining();
        more := ShouldReplay();
      }
    }
  }

  predicate IsOurs(e: Event) {
    !e.head.source.FromEnvironment?
  }

  function WithoutId(e: Event): Event {
    e.(head := e.head.(id := INVALID_ID))
  }

  function WithoutIds(events: seq<Event>): seq<Event> {
    seq(|events|, i requires 0 <= i < |events| => WithoutId(events[i]))
  }

  /** A replayed copy differs from the recorded event in its id only, which is unset. */
  lemma CopiesKeepAllButId(trajectory: seq<Event>, i: nat)
    requires i < |Select(trajectory, IsOurs)|
    ensures var recorded, copy := Select(trajectory, IsOurs)[i], WithoutIds(Select(trajectory, IsOurs))[i];
      && recorded in trajectory && recorded.head.source != FromEnvironment
      && copy.head.id == INVALID_ID && copy.(head := copy.head.(id := recorded.head.id)) == recorded
    ensures forall e :: e in trajectory && e.head.source != FromEnvironment ==> e in Select(trajectory, IsOurs)
  {
    assert Select(trajectory, IsOurs)[i] in Select(trajectory, IsOurs);
  }

  /** get_replay_events: drop the environment's events, and the ids, which the stream assigns anew. */
  method GetReplayEvents(trajectory: seq<Event>) returns (events: seq<Event>)
    ensures events == WithoutIds(Select(trajectory, IsOurs))
  {
    events := [];
    var i := 0;
    while i < |trajectory|
      invariant 0 <= i <= |trajectory|
      invariant events == WithoutIds(Select(trajectory[..i], IsOurs))
    {
      assert trajectory[..i + 1][..i] == trajectory[..i];
      if trajectory[i].head.source.FromEnvironment? {
      } else {
        events := events + [WithoutId(trajectory[i])];
      }
      i := i + 1;
    }
    assert trajectory[..i] == trajectory;
  }
}

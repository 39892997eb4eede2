/** Concrete runs that show where the guarantees of the refresh protocol end. */
module RefreshRaces {
  import opened Wrappers
  import opened Routes
  import opened RefreshProtocol
  import opened RefreshGenerations
  import opened RefreshConverse

  const KEY := Route("/n", "k")
  const FIRST := Dispatch(KEY, 1, 0)
  const SECOND := Dispatch(KEY, 2, 0)

  function OneShard(r: Route): nat { 0 }

  ghost predicate Reached(s: State) { exists run :: Run(OneShard, INITIAL, run) == Some(s) }

  lemma ReachedIsClosed(s: State, step: Step)
    requires Reached(s) && Plan(OneShard, s, step).Some?
    ensures Reached(Apply(s, Plan(OneShard, s, step).value))
  {
    var run :| Run(OneShard, INITIAL, run) == Some(s);
    RunAppend(OneShard, INITIAL, run, step);
  }

  // ---- a late release, step by step ------------------------------------------------------------

  /** A first GET missed and its refresh is in flight. */
  const STARTED := State(
    map[KEY := 1], map[1 := RouteState(KEY, 0, None)], map[], map[KEY := 10],
    map[10 := Refresh(KEY, 1, Pending, 1, 0)],
    map[0 := Done, 1 := Refreshing(10, FIRST, RateCheck)], {FIRST}, {})

  /** That refresh failed and has released its state, but is still in flight. */
  const FAILED := STARTED.(active := map[], tasks := STARTED.tasks[1 := Refreshing(10, FIRST, Publishing(Failed))])

  /** Two more GETs share a new route state. */
  const JOINING := State(
    map[KEY := 2], map[1 := RouteState(KEY, 0, None), 2 := RouteState(KEY, 0, None)], map[], map[KEY := 10],
    map[10 := Refresh(KEY, 1, Pending, 1, 0)],
    map[0 := Done, 1 := Refreshing(10, FIRST, Publishing(Failed)), 2 := Dispatched(SECOND), 3 := Dispatched(SECOND)],
    {FIRST, SECOND}, {})

  /** One of them found the first refresh and is about to release the new state; then the
      first refresh went away. */
  const DELAYED := JOINING.(
    inflight := map[], refreshes := map[10 := Refresh(KEY, 1, Failed, 1, 1)],
    tasks := map[0 := Done, 1 := Done, 2 := Mismatched(SECOND), 3 := Dispatched(SECOND)])

  /** The other started a refresh of its own, which has found the new state active. */
  const CONFIRMING := DELAYED.(
    inflight := map[KEY := 11], refreshes := DELAYED.refreshes[11 := Refresh(KEY, 2, Pending, 4, 0)],
    tasks := map[0 := Done, 1 := Done, 2 := Mismatched(SECOND), 3 := Done, 4 := Refreshing(11, SECOND, Checking)])

  /** The late release: the new state is inactive although its refresh is confirming. */
  const RACED := CONFIRMING.(active := map[], tasks := CONFIRMING.tasks[2 := Done])

  lemma ToStarted(reach: State -> bool)
    requires Closed(OneShard, reach, true) && reach(INITIAL)
    ensures reach(STARTED)
  {
    var s := Act(OneShard, reach, true, INITIAL, Arrive(0, KEY, 1), Move(0, Admitting(KEY, 1), Create(KEY, 1), NoTask));
    s := Act(OneShard, reach, true, s, ReadGeneration(0), Move(0, Dispatched(FIRST), Admit(FIRST), NoTask));
    s := Act(OneShard, reach, true, s, Finish(0, 10, 1),
             Move(0, Done, Open(10, Refresh(KEY, 1, Pending, 1, 0)), NewTask(1, Refreshing(10, FIRST, RateCheck))));
    assert s == STARTED;
  }

  lemma ToFailed(reach: State -> bool)
    requires Closed(OneShard, reach, true) && reach(STARTED)
    ensures reach(FAILED)
  {
    var s := Onward(OneShard, reach, true, STARTED, 1, Go, Querying, Nothing);
    s := Onward(OneShard, reach, true, s, 1, Answered(Lost), Releasing(Failed), Nothing);
    assert s == STARTED.(tasks := STARTED.tasks[1 := Refreshing(10, FIRST, Releasing(Failed))]);
    s := Onward(OneShard, reach, true, s, 1, Go, Publishing(Failed), Release(KEY, 1));
    assert s == FAILED;
  }

  lemma ToJoining(reach: State -> bool)
    requires Closed(OneShard, reach, true) && reach(FAILED)
    ensures reach(JOINING)
  {
    var s := Act(OneShard, reach, true, FAILED, Arrive(2, KEY, 2), Move(2, Admitting(KEY, 2), Create(KEY, 2), NoTask));
    SecondArrives(reach, s);
    ThirdArrives(reach);
  }

  lemma SecondArrives(reach: State -> bool, s: State)
    requires Closed(OneShard, reach, true) && reach(s)
    requires s == ALONE.(tasks := ALONE.tasks[2 := Admitting(KEY, 2)], admitted := {FIRST})
    ensures reach(ALONE)
  {
    var s' := Act(OneShard, reach, true, s, ReadGeneration(2), Move(2, Dispatched(SECOND), Admit(SECOND), NoTask));
    assert s' == ALONE;
  }

  const ALONE := JOINING.(
    tasks := map[0 := Done, 1 := Refreshing(10, FIRST, Publishing(Failed)), 2 := Dispatched(SECOND)])

  lemma ThirdArrives(reach: State -> bool)
    requires Closed(OneShard, reach, true) && reach(ALONE)
    ensures reach(JOINING)
  {
    var s := Act(OneShard, reach, true, ALONE, Arrive(3, KEY, 0), Move(3, Admitting(KEY, 2), Nothing, NoTask));
    s := Act(OneShard, reach, true, s, ReadGeneration(3), Move(3, Dispatched(SECOND), Admit(SECOND), NoTask));
    assert s == JOINING;
  }

  lemma ToDelayed(reach: State -> bool)
    requires Closed(OneShard, reach, true) && reach(JOINING)
    ensures reach(DELAYED)
  {
    var s := Act(OneShard, reach, true, JOINING, Finish(2, 0, 0), Move(2, Mismatched(SECOND), Nothing, NoTask));
    assert s == MISMATCHED;
    FirstRefreshGoes(reach);
  }

  const MISMATCHED := JOINING.(tasks := JOINING.tasks[2 := Mismatched(SECOND)])

  lemma FirstRefreshGoes(reach: State -> bool)
    requires Closed(OneShard, reach, true) && reach(MISMATCHED)
    ensures reach(DELAYED)
  {
    var s := Onward(OneShard, reach, true, MISMATCHED, 1, Go, Removing, Publish(10, Failed));
    assert s == PUBLISHED;
    FirstRefreshRetires(reach);
  }

  const PUBLISHED := DELAYED.(inflight := map[KEY := 10], tasks := DELAYED.tasks[1 := Refreshing(10, FIRST, Removing)])

  lemma FirstRefreshRetires(reach: State -> bool)
    requires Closed(OneShard, reach, true) && reach(PUBLISHED)
    ensures reach(DELAYED)
  {
    var s := Act(OneShard, reach, true, PUBLISHED, Advance(1, Go), Move(1, Done, Retire(KEY, 10), NoTask));
    assert s == DELAYED;
  }

  lemma ToConfirming(reach: State -> bool)
    requires Closed(OneShard, reach, true) && reach(DELAYED)
    ensures reach(CONFIRMING)
  {
    var s := Act(OneShard, reach, true, DELAYED, Finish(3, 11, 4),
                 Move(3, Done, Open(11, Refresh(KEY, 2, Pending, 4, 0)),
                      NewTask(4, Refreshing(11, SECOND, RateCheck))));
    assert s == CONFIRMING.(tasks := CONFIRMING.tasks[4 := Refreshing(11, SECOND, RateCheck)]);
    SecondRefreshAsks(reach);
  }

  lemma SecondRefreshAsks(reach: State -> bool)
    requires Closed(OneShard, reach, true)
             && reach(CONFIRMING.(tasks := CONFIRMING.tasks[4 := Refreshing(11, SECOND, RateCheck)]))
    ensures reach(CONFIRMING)
  {
    var s := CONFIRMING.(tasks := CONFIRMING.tasks[4 := Refreshing(11, SECOND, RateCheck)]);
    s := Onward(OneShard, reach, true, s, 4, Go, Querying, Nothing);
    s := Onward(OneShard, reach, true, s, 4, Answered(Confirmed), Looking, Nothing);
    s := Onward(OneShard, reach, true, s, 4, Go, Checking, Nothing);
    assert s == CONFIRMING;
  }

  lemma ToRaced(reach: State -> bool)
    requires Closed(OneShard, reach, true) && reach(INITIAL)
    ensures reach(RACED) && Late(CONFIRMING, DropMismatched(2))
  {
    ToStarted(reach);
    ToFailed(reach);
    ToJoining(reach);
    ToDelayed(reach);
    ToConfirming(reach);
    var s := Act(OneShard, reach, true, CONFIRMING, DropMismatched(2), Move(2, Done, Release(KEY, 2), NoTask));
    assert s == RACED;
  }

  /** A drained mutation of one scope is recorded; other tasks and all states stay. */
  lemma Settles(reach: State -> bool, s: State, t: TaskId, record: Recorded) returns (s': State)
    requires Closed(OneShard, reach, true) && reach(s)
    requires t in s.tasks && s.tasks[t] == Committing([record.scope], Draining({}), record.before, record.found)
    ensures reach(s') && s'.recorded == s.recorded + {record} && s'.states == s.states
    ensures s'.markers == Swept(s.markers, record.scope)
    ensures forall u | u in s.tasks && u != t :: u in s'.tasks && s'.tasks[u] == s.tasks[u]
  {
    assert [record.scope][1..] == [];
    s' := Act(OneShard, reach, true, s, Record(t, Go),
              Move(t, Committing([], Next, record.before, record.found),
                   Settle(record, Swept(s.markers, record.scope)), NoTask));
  }

  // ---- a Set after the race ----------------------------------------------------------------------

  const SEEN: set<Dispatch> := {FIRST, SECOND}

  /** Without the quiet condition the guarantee is false: after a Set that found its route
      active has been recorded, a dispatch admitted before it still becomes a marker. */
  lemma LateReleaseDefeatsSet()
    ensures exists run, s, record, d: Dispatch ::
              && Run(OneShard, INITIAL, run) == Some(s)
              && record in s.recorded && record.scope == One(d.route) && record.found
              && d in record.before && Marked(s, d)
  {
    var reach := AsFunction();
    ToRaced(reach);
    var s := SetIsRecorded(OneShard, reach, RACED, KEY);
    s := ConfirmationMarks(OneShard, reach, s, 4);
    SetIsDefeated(s);
  }

  lemma SetIsDefeated(s: State)
    requires Reached(s) && Recorded(One(KEY), SEEN, true) in s.recorded && Marked(s, SECOND)
    ensures exists run, record, d: Dispatch ::
              && Run(OneShard, INITIAL, run) == Some(s)
              && record in s.recorded && record.scope == One(d.route) && record.found
              && d in record.before && Marked(s, d)
  {
    var record := Recorded(One(KEY), SEEN, true);
    assert SECOND in record.before && record.scope == One(SECOND.route);
    var run :| Run(OneShard, INITIAL, run) == Some(s);
  }

  lemma AsFunction() returns (reach: State -> bool)
    ensures Closed(OneShard, reach, true) && reach(INITIAL)
    ensures forall s :: reach(s) ==> Reached(s)
  {
    reach := s => Reached(s);
    assert Run(OneShard, INITIAL, []) == Some(INITIAL);
    forall s: State, step: Step | reach(s) && Plan(OneShard, s, step).Some?
      ensures reach(Apply(s, Plan(OneShard, s, step).value))
    {
      ReachedIsClosed(s, step);
    }
  }

  // ---- a Delete after the race ----------------------------------------------------------------------

  const ALL := Many("/n", None)

  function Deleting(pc: CommitPc): Task { Committing([ALL], pc, SEEN, false) }

  function DeletingState(pc: CommitPc): State { RACED.(tasks := RACED.tasks[5 := Deleting(pc)]) }

  /** With no route active the walk over the shards finds nothing. */
  lemma {:induction false} WalkShards(reach: State -> bool, shard: nat)
    requires Closed(OneShard, reach, true) && shard <= MUTATION_SHARD_COUNT && reach(DeletingState(Scanning(0, {})))
    ensures reach(DeletingState(Scanning(shard, {})))
  {
    if shard > 0 {
      WalkShards(reach, shard - 1);
      var s := DeletingState(Scanning(shard - 1, {}));
      assert {} + ShardLeads(OneShard, s, "/n", shard - 1) == {};
      var s' := Act(OneShard, reach, true, s, Record(5, Go), Move(5, Deleting(Scanning(shard, {})), Nothing, NoTask));
      assert s'.tasks == DeletingState(Scanning(shard, {})).tasks;
    }
  }

  lemma DeleteStarts(reach: State -> bool)
    requires Closed(OneShard, reach, true) && reach(RACED)
    ensures reach(DeletingState(Scanning(0, {})))
  {
    var s := Act(OneShard, reach, true, RACED, Begin(5, [ALL]),
                 Move(5, Committing([ALL], Next, {}, false), Nothing, NoTask));
    DeleteScans(reach, s);
  }

  lemma DeleteScans(reach: State -> bool, s: State)
    requires Closed(OneShard, reach, true) && reach(s)
             && s == RACED.(tasks := RACED.tasks[5 := Committing([ALL], Next, {}, false)])
    ensures reach(DeletingState(Scanning(0, {})))
  {
    var s' := Act(OneShard, reach, true, s, Record(5, Go), Move(5, Deleting(Scanning(0, {})), Nothing, NoTask));
    assert s'.tasks == DeletingState(Scanning(0, {})).tasks;
  }

  lemma DeleteRecords(reach: State -> bool) returns (s: State)
    requires Closed(OneShard, reach, true) && reach(RACED)
    ensures reach(s) && s.recorded == {Recorded(ALL, SEEN, false)}
    ensures 4 in s.tasks && s.tasks[4] == Refreshing(11, SECOND, Checking)
    ensures 2 in s.states && s.states[2] == RouteState(KEY, 0, None)
  {
    DeleteStarts(reach);
    WalkShards(reach, MUTATION_SHARD_COUNT);
    s := DeletingState(Scanning(MUTATION_SHARD_COUNT, {}));
    s := Act(OneShard, reach, true, s, Record(5, Go), Move(5, Deleting(Draining({})), Nothing, NoTask));
    s := Settles(reach, s, 5, Recorded(ALL, SEEN, false));
  }

  /** The same for a Delete of the whole namespace. */
  lemma LateReleaseDefeatsDelete()
    ensures exists run, s, record, d: Dispatch ::
              && Run(OneShard, INITIAL, run) == Some(s)
              && record in s.recorded && record.scope.Many? && Covers(record.scope, d.route)
              && d in record.before && Marked(s, d)
  {
    var reach := AsFunction();
    ToRaced(reach);
    var s := DeleteRecords(reach);
    s := ConfirmationMarks(OneShard, reach, s, 4);
    DeleteIsDefeated(s);
  }

  lemma DeleteIsDefeated(s: State)
    requires Reached(s) && Recorded(ALL, SEEN, false) in s.recorded && Marked(s, SECOND)
    ensures exists run, record, d: Dispatch ::
              && Run(OneShard, INITIAL, run) == Some(s)
              && record in s.recorded && record.scope.Many? && Covers(record.scope, d.route)
              && d in record.before && Marked(s, d)
  {
    var record := Recorded(ALL, SEEN, false);
    assert Covers(record.scope, SECOND.route) && SECOND in record.before;
    var run :| Run(OneShard, INITIAL, run) == Some(s);
  }

  // ---- a Set that finds its route inactive -------------------------------------------------------

  lemma FirstRefreshMarks(reach: State -> bool) returns (s: State)
    requires Closed(OneShard, reach, true) && reach(STARTED)
    ensures reach(s) && s.active == map[] && s.markers == map[KEY := FIRST]
    ensures s.tasks.Keys == {0, 1} && s.admitted == {FIRST}
  {
    s := Onward(OneShard, reach, true, STARTED, 1, Go, Querying, Nothing);
    s := Onward(OneShard, reach, true, s, 1, Answered(Confirmed), Looking, Nothing);
    s := Onward(OneShard, reach, true, s, 1, Go, Checking, Nothing);
    s := FirstRefreshInserts(reach, s);
  }

  lemma FirstRefreshInserts(reach: State -> bool, s: State) returns (s': State)
    requires Closed(OneShard, reach, true) && reach(s)
    requires s == STARTED.(tasks := s.tasks) && s.tasks.Keys == {0, 1} && s.tasks[1] == Refreshing(10, FIRST, Checking)
    ensures reach(s') && s'.active == map[] && s'.markers == map[KEY := FIRST]
    ensures s'.tasks.Keys == {0, 1} && s'.admitted == {FIRST}
  {
    s' := Onward(OneShard, reach, true, s, 1, Go, Reading, Nothing);
    s' := FirstRefreshLocks(reach, s');
    s' := FirstRefreshEnds(reach, s');
  }

  lemma FirstRefreshLocks(reach: State -> bool, s: State) returns (s': State)
    requires Closed(OneShard, reach, true) && reach(s)
    requires s == STARTED.(tasks := s.tasks) && s.tasks.Keys == {0, 1} && s.tasks[1] == Refreshing(10, FIRST, Reading)
    ensures reach(s') && s'.tasks.Keys == {0, 1} && s'.tasks[1] == Refreshing(10, FIRST, Rechecking)
    ensures s' == STARTED.(states := map[1 := RouteState(KEY, 0, Some(1))], tasks := s'.tasks)
  {
    s' := Onward(OneShard, reach, true, s, 1, Go, Gating, Nothing);
    s' := Onward(OneShard, reach, true, s', 1, Go, Rechecking, Gate(1, Some(1)));
  }

  lemma FirstRefreshEnds(reach: State -> bool, s: State) returns (s': State)
    requires Closed(OneShard, reach, true) && reach(s) && GenerationOf(s, 1) == Some(0) && s.active == map[KEY := 1]
             && s.markers == map[]
    requires s.tasks.Keys == {0, 1} && s.tasks[1] == Refreshing(10, FIRST, Rechecking) && s.admitted == {FIRST}
    ensures reach(s') && s'.active == map[] && s'.markers == map[KEY := FIRST]
    ensures s'.tasks.Keys == {0, 1} && s'.admitted == {FIRST}
  {
    s' := Onward(OneShard, reach, true, s, 1, Go, Inserting, Nothing);
    s' := FirstRefreshReleases(reach, s');
  }

  lemma FirstRefreshReleases(reach: State -> bool, s: State) returns (s': State)
    requires Closed(OneShard, reach, true) && reach(s) && s.active == map[KEY := 1] && s.markers == map[]
    requires s.tasks.Keys == {0, 1} && s.tasks[1] == Refreshing(10, FIRST, Inserting) && s.admitted == {FIRST}
    ensures reach(s') && s'.active == map[] && s'.markers == map[KEY := FIRST]
    ensures s'.tasks.Keys == {0, 1} && s'.admitted == {FIRST}
  {
    s' := Onward(OneShard, reach, true, s, 1, Go, Dropping, Mark(FIRST));
    s' := Onward(OneShard, reach, true, s', 1, Go, Unlocking, Release(KEY, 1));
  }

  lemma InactiveSet(reach: State -> bool, s: State) returns (s': State)
    requires Closed(OneShard, reach, true) && reach(s) && s.active == map[] && 2 !in s.tasks && s.admitted == {FIRST}
    ensures reach(s') && Recorded(One(KEY), {FIRST}, false) in s'.recorded && s'.markers == s.markers
  {
    s' := Act(OneShard, reach, true, s, Begin(2, [One(KEY)]),
              Move(2, Committing([One(KEY)], Next, {}, false), Nothing, NoTask));
    s' := Act(OneShard, reach, true, s', Record(2, Go),
              Move(2, Committing([One(KEY)], Draining({}), {FIRST}, false), Nothing, NoTask));
    s' := Settles(reach, s', 2, Recorded(One(KEY), {FIRST}, false));
  }

  /** An exact Set that finds no active route state leaves an earlier marker in place. */
  lemma InactiveSetKeepsMarker()
    ensures exists run, s, record, d: Dispatch ::
              && Run(OneShard, INITIAL, run) == Some(s)
              && record in s.recorded && record.scope == One(d.route) && !record.found
              && d in record.before && Marked(s, d)
  {
    var reach := AsFunction();
    ToStarted(reach);
    var s := FirstRefreshMarks(reach);
    s := InactiveSet(reach, s);
    assert Marked(s, FIRST);
    var run :| Run(OneShard, INITIAL, run) == Some(s);
  }
}

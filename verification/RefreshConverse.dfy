/** The quiet condition is exact: after a late release, and after no other step, a quiet
    continuation can defeat a recorded mutation. */
module RefreshConverse {
  import opened Wrappers
  import opened Routes
  import opened RefreshProtocol
  import opened RefreshInvariants
  import opened RefreshFlight
  import opened RefreshGenerations
  import opened RefreshTheorems
  import RefreshLiveness

  /** A recorded Delete or Move, or a Set that found its route active, has left a marker of a
      dispatch admitted before it. */
  ghost predicate Defeated(s: State) {
    exists record, d :: Defeats(s, record, d)
  }

  ghost predicate Defeats(s: State, record: Recorded, d: Dispatch) {
    && record in s.recorded && d in record.before && Covers(record.scope, d.route)
    && (record.scope.Many? || record.found) && Marked(s, d)
  }

  /** Some quiet continuation ends so. */
  ghost predicate Defeatable(hash: Route -> nat, s: State) {
    exists steps :: Run(hash, s, steps).Some? && Quiet(hash, s, steps) && Defeated(Run(hash, s, steps).value)
  }

  // ---- a safe state is never defeated -------------------------------------------------------------

  lemma SafeIsNotDefeatable(hash: Route -> nat, s: State)
    requires Inv(s) && Safe(hash, s)
    ensures !Defeatable(hash, s)
  {
    forall steps | Run(hash, s, steps).Some? && Quiet(hash, s, steps)
      ensures !Defeated(Run(hash, s, steps).value)
    {
      SafeRun(hash, s, steps);
      NotDefeated(Run(hash, s, steps).value);
    }
  }

  lemma NotDefeated(s: State)
    requires RecordsOk(s)
    ensures !Defeated(s)
  {
    forall record, d
      ensures !Defeats(s, record, d)
    {
      assert record in s.recorded ==> ShutOut(s, record);
    }
  }

  // ---- continuations without a mismatched release -------------------------------------------------

  /** Reachability, with or without mismatched releases, seen as any property of states that those
      steps keep. */
  ghost predicate Closed(hash: Route -> nat, reach: State -> bool, releases: bool) {
    forall s: State, step: Step | reach(s) && (releases || !step.DropMismatched?) && Plan(hash, s, step).Some? ::
      reach(Apply(s, Plan(hash, s, step).value))
  }

  lemma Act(hash: Route -> nat, reach: State -> bool, releases: bool, s: State, step: Step, m: Move)
    returns (s': State)
    requires Closed(hash, reach, releases) && reach(s) && (releases || !step.DropMismatched?)
    requires Plan(hash, s, step) == Some(m)
    ensures s' == Apply(s, m) && reach(s')
  {
    s' := Apply(s, m);
  }

  /** A step of a refresh task. */
  lemma Onward(hash: Route -> nat, reach: State -> bool, releases: bool, s: State, u: TaskId, choice: Choice,
               next: Phase, effect: Effect)
    returns (s': State)
    requires Closed(hash, reach, releases) && reach(s) && u in s.tasks && s.tasks[u].Refreshing?
    requires var task := s.tasks[u];
             && Offered(task.phase, choice)
             && AdvanceMove(s, u, task.refresh, task.dispatch, task.phase, choice)
                == Some(To(u, task.refresh, task.dispatch, next, effect))
    ensures s' == Apply(s, To(u, s.tasks[u].refresh, s.tasks[u].dispatch, next, effect)) && reach(s')
  {
    s' := Act(hash, reach, releases, s, Advance(u, choice),
              To(u, s.tasks[u].refresh, s.tasks[u].dispatch, next, effect));
  }

  ghost predicate NoRelease(steps: seq<Step>) { forall i | 0 <= i < |steps| :: !steps[i].DropMismatched? }

  lemma {:induction false} NoReleaseIsQuiet(hash: Route -> nat, s: State, steps: seq<Step>)
    requires Run(hash, s, steps).Some? && NoRelease(steps)
    ensures Quiet(hash, s, steps)
    decreases |steps|
  {
    if steps != [] { NoReleaseIsQuiet(hash, Apply(s, Plan(hash, s, steps[0]).value), steps[1..]); }
  }

  lemma {:induction false} RunAppend(hash: Route -> nat, s: State, steps: seq<Step>, step: Step)
    requires Run(hash, s, steps).Some? && Plan(hash, Run(hash, s, steps).value, step).Some?
    ensures var mid := Run(hash, s, steps).value;
            Run(hash, s, steps + [step]) == Some(Apply(mid, Plan(hash, mid, step).value))
    decreases |steps|
  {
    if steps == [] {
      assert steps + [step] == [step];
    } else {
      RunAppend(hash, Apply(s, Plan(hash, s, steps[0]).value), steps[1..], step);
      assert (steps + [step])[1..] == steps[1..] + [step];
    }
  }

  ghost predicate Follows(hash: Route -> nat, s: State, s': State) {
    exists steps :: NoRelease(steps) && Run(hash, s, steps) == Some(s')
  }

  lemma FollowsOn(hash: Route -> nat, s: State, s': State, step: Step)
    requires Follows(hash, s, s') && !step.DropMismatched? && Plan(hash, s', step).Some?
    ensures Follows(hash, s, Apply(s', Plan(hash, s', step).value))
  {
    var steps :| NoRelease(steps) && Run(hash, s, steps) == Some(s');
    RunAppend(hash, s, steps, step);
    assert NoRelease(steps + [step]);
  }

  lemma Continuations(hash: Route -> nat, s: State) returns (reach: State -> bool)
    ensures Closed(hash, reach, false) && reach(s)
    ensures forall s' :: reach(s') ==> Follows(hash, s, s')
  {
    reach := s' => Follows(hash, s, s');
    assert NoRelease([]) && Run(hash, s, []) == Some(s);
    forall s': State, step: Step | reach(s') && !step.DropMismatched? && Plan(hash, s', step).Some?
      ensures reach(Apply(s', Plan(hash, s', step).value))
    {
      FollowsOn(hash, s, s', step);
    }
  }

  // ---- a Set that finds a new route state -----------------------------------------------------------

  /** Other tasks and the state `id` are as before. */
  ghost predicate Beside(s: State, s': State, b: TaskId, n: StateId) {
    && (forall t | t in s.tasks && t != b :: t in s'.tasks && s'.tasks[t] == s.tasks[t])
    && (forall id | id in s.states && id != n :: id in s'.states && s'.states[id] == s.states[id])
  }

  function Setting(r: Route, pc: CommitPc, before: set<Dispatch>): Task { Committing([One(r)], pc, before, true) }

  /** A GET makes an inactive route active again, and a Set finds it. */
  lemma SetFinds(hash: Route -> nat, reach: State -> bool, s: State, r: Route, a: TaskId, b: TaskId, n: StateId)
    returns (s': State)
    requires Closed(hash, reach, false) && reach(s) && r !in s.active && a != b && a !in s.tasks && b !in s.tasks
             && n !in s.states
    ensures reach(s') && Beside(s, s', b, n) && s'.recorded == s.recorded
    ensures b in s'.tasks && s'.tasks[b] == Setting(r, Draining({Lead(r, n)}), s.admitted)
    ensures n in s'.states && s'.states[n].gate.None?
  {
    s' := Act(hash, reach, false, s, Arrive(a, r, n), Move(a, Admitting(r, n), Create(r, n), NoTask));
    s' := Act(hash, reach, false, s', Begin(b, [One(r)]),
              Move(b, Committing([One(r)], Next, {}, false), Nothing, NoTask));
    s' := Act(hash, reach, false, s', Record(b, Go),
              Move(b, Setting(r, Draining({Lead(r, n)}), s.admitted), Nothing, NoTask));
  }

  lemma SetLocks(hash: Route -> nat, reach: State -> bool, s: State, r: Route, b: TaskId, n: StateId,
                 before: set<Dispatch>)
    returns (s': State)
    requires Closed(hash, reach, false) && reach(s) && n in s.states && s.states[n].gate.None?
    requires b in s.tasks && s.tasks[b] == Setting(r, Draining({Lead(r, n)}), before)
    ensures reach(s') && Beside(s, s', b, n) && s'.recorded == s.recorded
    ensures b in s'.tasks && s'.tasks[b] == Setting(r, Bumping(Lead(r, n), {}), before)
  {
    var lead := Lead(r, n);
    assert {lead} - {lead} == {};
    s' := Act(hash, reach, false, s, Record(b, Pick(lead)),
              Move(b, Setting(r, Locking(lead, {}), before), Nothing, NoTask));
    s' := Act(hash, reach, false, s', Record(b, Go),
              Move(b, Setting(r, Bumping(lead, {}), before), Gate(n, Some(b)), NoTask));
  }

  lemma SetBumps(hash: Route -> nat, reach: State -> bool, s: State, r: Route, b: TaskId, n: StateId,
                 before: set<Dispatch>)
    returns (s': State)
    requires Closed(hash, reach, false) && reach(s)
    requires b in s.tasks && s.tasks[b] == Setting(r, Bumping(Lead(r, n), {}), before)
    ensures reach(s') && Beside(s, s', b, n) && s'.recorded == s.recorded
    ensures b in s'.tasks && s'.tasks[b] == Setting(r, Leaving(Lead(r, n), {}), before)
  {
    var lead := Lead(r, n);
    s' := Act(hash, reach, false, s, Record(b, Go),
              Move(b, Setting(r, Invalidating(lead, {}), before), Bump(n), NoTask));
    s' := Act(hash, reach, false, s', Record(b, Go), Move(b, Setting(r, Leaving(lead, {}), before), Unmark(r), NoTask));
  }

  lemma SetLeaves(hash: Route -> nat, reach: State -> bool, s: State, r: Route, b: TaskId, n: StateId,
                  before: set<Dispatch>)
    returns (s': State)
    requires Closed(hash, reach, false) && reach(s)
    requires b in s.tasks && s.tasks[b] == Setting(r, Leaving(Lead(r, n), {}), before)
    ensures reach(s') && Beside(s, s', b, n) && Recorded(One(r), before, true) in s'.recorded
  {
    var lead := Lead(r, n);
    var record := Recorded(One(r), before, true);
    s' := Act(hash, reach, false, s, Record(b, Go), Move(b, Setting(r, Draining({}), before), Gate(n, None), NoTask));
    assert [One(r)][1..] == [];
    s' := Act(hash, reach, false, s', Record(b, Go),
              Move(b, Committing([], Next, before, true), Settle(record, Swept(s'.markers, One(r))), NoTask));
  }

  /** A Set of an inactive route can be recorded as one that found its route active. */
  lemma SetIsRecorded(hash: Route -> nat, reach: State -> bool, s: State, r: Route) returns (s': State)
    requires Closed(hash, reach, false) && reach(s) && r !in s.active
    ensures reach(s') && Recorded(One(r), s.admitted, true) in s'.recorded
    ensures forall t | t in s.tasks :: t in s'.tasks && s'.tasks[t] == s.tasks[t]
    ensures forall id | id in s.states :: id in s'.states && s'.states[id] == s.states[id]
  {
    var a := RefreshLiveness.FreshNat(s.tasks.Keys);
    var b := RefreshLiveness.FreshNat(s.tasks.Keys + {a});
    var n := RefreshLiveness.FreshNat(s.states.Keys);
    s' := SetFinds(hash, reach, s, r, a, b, n);
    s' := SetLocks(hash, reach, s', r, b, n, s.admitted);
    s' := SetBumps(hash, reach, s', r, b, n, s.admitted);
    s' := SetLeaves(hash, reach, s', r, b, n, s.admitted);
  }

  // ---- the confirmation goes on ------------------------------------------------------------------------

  /** From any point at which a confirmation can still mark, it can go on and mark. */
  lemma ConfirmationMarks(hash: Route -> nat, reach: State -> bool, s: State, u: TaskId) returns (s': State)
    requires Closed(hash, reach, false) && reach(s) && u in s.tasks && CanMark(s, s.tasks[u])
    ensures reach(s') && Marked(s', s.tasks[u].dispatch) && s'.recorded == s.recorded
  {
    var f, d := s.tasks[u].refresh, s.tasks[u].dispatch;
    s' := s;
    if s'.tasks[u].phase.Checking? { s' := Act(hash, reach, false, s', Advance(u, Go), To(u, f, d, Reading, Nothing)); }
    if s'.tasks[u].phase.Reading? { s' := Act(hash, reach, false, s', Advance(u, Go), To(u, f, d, Gating, Nothing)); }
    s' := GatedConfirmationMarks(hash, reach, s', u, f, d);
  }

  lemma GatedConfirmationMarks(hash: Route -> nat, reach: State -> bool, s: State, u: TaskId, f: RefreshId, d: Dispatch)
    returns (s': State)
    requires Closed(hash, reach, false) && reach(s) && u in s.tasks && CanMark(s, s.tasks[u])
    requires s.tasks[u] == Refreshing(f, d, s.tasks[u].phase) && !s.tasks[u].phase.Checking?
             && !s.tasks[u].phase.Reading?
    ensures reach(s') && Marked(s', d) && s'.recorded == s.recorded
  {
    s' := s;
    if s'.tasks[u].phase.Gating? {
      s' := Onward(hash, reach, false, s', u, Go, Rechecking, Gate(d.id, Some(u)));
    }
    if s'.tasks[u].phase.Rechecking? {
      s' := Onward(hash, reach, false, s', u, Go, Inserting, Nothing);
    }
    s' := Onward(hash, reach, false, s', u, Go, Dropping, Mark(d));
  }

  // ---- the condition is exact --------------------------------------------------------------------------

  lemma ReleaseDeactivates(hash: Route -> nat, s: State, step: Step) returns (s': State, u: TaskId)
    requires Inv(s) && Late(s, step) && Plan(hash, s, step).Some?
    ensures s' == Apply(s, Plan(hash, s, step).value)
    ensures u in s'.tasks && CanMark(s', s'.tasks[u]) && s'.tasks[u].dispatch in s'.admitted
    ensures s'.tasks[u].dispatch.route !in s'.active
  {
    var d := s.tasks[step.task].dispatch;
    u := OwnerOf(s, s.inflight[d.route]);
    InflightRoute(s, d.route);
    s' := LateApplied(hash, s, step);
  }

  lemma InflightRoute(s: State, route: Route)
    requires FlightOk(s) && route in s.inflight
    ensures s.refreshes[s.inflight[route]].route == route
  {
  }

  /** What a late release changes. */
  lemma LateApplied(hash: Route -> nat, s: State, step: Step) returns (s': State)
    requires Late(s, step) && Plan(hash, s, step).Some?
    ensures var d := s.tasks[step.task].dispatch;
            && s' == s.(active := s.active - {d.route}, tasks := s.tasks[step.task := Done])
            && s' == Apply(s, Plan(hash, s, step).value)
  {
    s' := Apply(s, Plan(hash, s, step).value);
  }

  lemma OwnerOf(s: State, f: RefreshId) returns (u: TaskId)
    requires FlightOk(s) && TasksOk(s) && f in s.refreshes
    requires s.refreshes[f].owner in s.tasks && s.tasks[s.refreshes[f].owner].Refreshing?
    ensures u == s.refreshes[f].owner && s.tasks[u].dispatch in s.admitted
    ensures s.tasks[u].dispatch.route == s.refreshes[f].route
  {
    u := s.refreshes[f].owner;
    assert Runs(s.inflight, s.refreshes, u, s.tasks[u]);
    assert Owned(s.tasks, f, s.refreshes[f]);
    assert TaskOk(s.states, s.admitted, s.tasks[u]);
  }

  /** In every reachable state, quiet or not, a late release can be followed by a Set that finds its
      route active and is recorded, and by an earlier dispatch becoming a marker after all. */
  lemma LateReleaseIsDefeatable(hash: Route -> nat, s: State, step: Step)
    requires Inv(s) && Late(s, step) && Plan(hash, s, step).Some?
    ensures Defeatable(hash, Apply(s, Plan(hash, s, step).value))
  {
    var s0, u := ReleaseDeactivates(hash, s, step);
    var d := s0.tasks[u].dispatch;
    var reach := Continuations(hash, s0);
    var s1 := SetIsRecorded(hash, reach, s0, d.route);
    var s2 := ConfirmationMarks(hash, reach, s1, u);
    assert Defeats(s2, Recorded(One(d.route), s0.admitted, true), d);
    FollowedIsDefeatable(hash, s0, s2);
  }

  lemma FollowedIsDefeatable(hash: Route -> nat, s: State, s': State)
    requires Follows(hash, s, s') && Defeated(s')
    ensures Defeatable(hash, s)
  {
    var steps :| NoRelease(steps) && Run(hash, s, steps) == Some(s');
    NoReleaseIsQuiet(hash, s, steps);
  }

  /** After a quiet run, a step makes a defeat possible exactly when it is a late release. */
  lemma DefeatableIffLate(hash: Route -> nat, past: seq<Step>, s: State, step: Step)
    requires Run(hash, INITIAL, past) == Some(s) && Quiet(hash, INITIAL, past) && Plan(hash, s, step).Some?
    ensures Defeatable(hash, Apply(s, Plan(hash, s, step).value)) <==> Late(s, step)
  {
    InitialInv(hash);
    InvRun(hash, INITIAL, past);
    SafeRun(hash, INITIAL, past);
    if Late(s, step) {
      LateReleaseIsDefeatable(hash, s, step);
    } else {
      InvStep(hash, s, step);
      SafeStep(hash, s, step);
      SafeIsNotDefeatable(hash, Apply(s, Plan(hash, s, step).value));
    }
  }
}

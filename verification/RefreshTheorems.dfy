/** What every run of the refresh protocol guarantees. */
module RefreshTheorems {
  import opened Wrappers
  import opened Routes
  import opened RefreshProtocol
  import opened RefreshInvariants
  import opened RefreshFlight
  import opened RefreshGenerations

  // ---- induction over runs -----------------------------------------------------------------

  ghost predicate Inv(s: State) {
    Shape(s) && GatesOk(s.states, s.tasks) && FlightOk(s) && ClaimsOk(s)
  }

  /** Done tasks do not move, and the only outcome published is a terminal one. */
  lemma MoveIsTerminal(hash: Route -> nat, s: State, step: Step)
    requires Shape(s) && Plan(hash, s, step).Some?
    ensures step.task in s.tasks ==> !s.tasks[step.task].Done?
    ensures var e := Plan(hash, s, step).value.effect;
            e.Publish? ==> !e.outcome.Pending?
  {
    if step.task in s.tasks { assert TaskOk(s.states, s.admitted, s.tasks[step.task]); }
  }

  lemma InvStep(hash: Route -> nat, s: State, step: Step)
    requires Inv(s) && Plan(hash, s, step).Some?
    ensures Inv(Apply(s, Plan(hash, s, step).value))
  {
    var m := Plan(hash, s, step).value;
    MoveIsTerminal(hash, s, step);
    ShapeStep(hash, s, step);
    PlanGates(hash, s, step);
    HeldByTaskStep(s, m);
    HeldByStateStep(s, m);
    PlanFlight(hash, s, step);
    FlightStep(s, m);
    PlanClaims(hash, s, step);
    ClaimsStep(s, m);
  }

  lemma SafeStep(hash: Route -> nat, s: State, step: Step)
    requires Inv(s) && Safe(hash, s) && Plan(hash, s, step).Some? && !Late(s, step)
    ensures Safe(hash, Apply(s, Plan(hash, s, step).value))
  {
    var m := Plan(hash, s, step).value;
    PlanOk(hash, s, step);
    PlanAnchors(hash, s, step);
    PlanNotLate(hash, s, step);
    AnchorsStep(s, m);
    BumpedStep(s, m);
    InsertsStep(s, m);
    MoveAges(s, m);
    ProgressStep(hash, s, step);
    RecordsStep(hash, s, step);
    SameRecords(Do(s, m.effect), Apply(s, m));
  }

  lemma SameRecords(s: State, s': State)
    requires RecordsOk(s) && s'.recorded == s.recorded
    requires s'.active == s.active && s'.states == s.states && s'.markers == s.markers
    ensures RecordsOk(s')
  {
    forall record | record in s'.recorded
      ensures ShutOut(s', record)
    {
      assert ShutOut(s, record);
    }
  }

  lemma {:induction false} InvRun(hash: Route -> nat, s: State, steps: seq<Step>)
    requires Inv(s) && Run(hash, s, steps).Some?
    ensures Inv(Run(hash, s, steps).value)
    decreases |steps|
  {
    if steps != [] {
      InvStep(hash, s, steps[0]);
      InvRun(hash, Apply(s, Plan(hash, s, steps[0]).value), steps[1..]);
    }
  }

  lemma {:induction false} SafeRun(hash: Route -> nat, s: State, steps: seq<Step>)
    requires Inv(s) && Safe(hash, s) && Run(hash, s, steps).Some? && Quiet(hash, s, steps)
    ensures Safe(hash, Run(hash, s, steps).value)
    decreases |steps|
  {
    if steps != [] {
      InvStep(hash, s, steps[0]);
      SafeStep(hash, s, steps[0]);
      SafeRun(hash, Apply(s, Plan(hash, s, steps[0]).value), steps[1..]);
    }
  }

  /** What has been recorded, admitted or created stays so; terminal completions stand. */
  ghost predicate Remembers(s: State, s': State) {
    && s.recorded <= s'.recorded
    && s.admitted <= s'.admitted
    && (forall f | f in s.refreshes :: f in s'.refreshes && s'.refreshes[f].owner == s.refreshes[f].owner)
    && (forall f | f in s.refreshes && !s.refreshes[f].completion.Pending? :: s'.refreshes[f] == s.refreshes[f])
  }

  lemma RemembersStep(hash: Route -> nat, s: State, step: Step)
    requires Inv(s) && Plan(hash, s, step).Some?
    ensures Remembers(s, Apply(s, Plan(hash, s, step).value))
  {
    var m := Plan(hash, s, step).value;
    MoveIsTerminal(hash, s, step);
    PlanFlight(hash, s, step);
    EffectRemembers(s, m);
  }

  lemma EffectRemembers(s: State, m: Move)
    requires FlightOk(s) && FlightFacts(s, m)
    ensures Remembers(s, Do(s, m.effect))
  {
    if m.effect.Publish? { assert Runs(s.inflight, s.refreshes, m.task, s.tasks[m.task]); }
  }

  lemma {:induction false} RemembersRun(hash: Route -> nat, s: State, steps: seq<Step>)
    requires Inv(s) && Run(hash, s, steps).Some?
    ensures Remembers(s, Run(hash, s, steps).value)
    decreases |steps|
  {
    if steps != [] {
      var next := Apply(s, Plan(hash, s, steps[0]).value);
      InvStep(hash, s, steps[0]);
      RemembersStep(hash, s, steps[0]);
      RemembersRun(hash, next, steps[1..]);
    }
  }

  lemma InitialInv(hash: Route -> nat)
    ensures Inv(INITIAL) && Safe(hash, INITIAL)
  {
  }

  // ---- mutations shut out earlier miss markers -----------------------------------------------

  /** In a quiet run, once a mutation has been recorded, no dispatch admitted before it
      started recording can later become a marker.  A Delete or Move leaves none of their
      markers behind either, and nor does a Set that found its route active. */
  lemma RecordedMutationShutsOutEarlierMisses(
    hash: Route -> nat, past: seq<Step>, future: seq<Step>, s: State, s': State, record: Recorded, d: Dispatch)
    requires Run(hash, INITIAL, past) == Some(s) && Quiet(hash, INITIAL, past)
    requires Run(hash, s, future) == Some(s') && Quiet(hash, s, future)
    requires record in s.recorded && d in record.before && Covers(record.scope, d.route)
    ensures record.scope.Many? || record.found ==> !Marked(s', d)
    ensures Marked(s', d) ==> Marked(s, d)
  {
    InitialInv(hash);
    InvRun(hash, INITIAL, past);
    SafeRun(hash, INITIAL, past);
    SafeRun(hash, s, future);
    RemembersRun(hash, s, future);
    assert ShutOut(s', record);
    if !Marked(s, d) { NeverMarked(hash, s, future, d); }
  }

  lemma {:induction false} NeverMarked(hash: Route -> nat, s: State, steps: seq<Step>, d: Dispatch)
    requires Inv(s) && Safe(hash, s) && Run(hash, s, steps).Some? && Quiet(hash, s, steps)
    requires d in s.admitted && !Live(s, d) && !Marked(s, d)
    ensures !Marked(Run(hash, s, steps).value, d)
    decreases |steps|
  {
    if steps != [] {
      var m := Plan(hash, s, steps[0]).value;
      PlanOk(hash, s, steps[0]);
      PlanAnchors(hash, s, steps[0]);
      MoveAges(s, m);
      InvStep(hash, s, steps[0]);
      SafeStep(hash, s, steps[0]);
      RemembersStep(hash, s, steps[0]);
      NeverMarked(hash, Apply(s, m), steps[1..], d);
    }
  }

  // ---- single flight ---------------------------------------------------------------------------

  predicate OutstandingQuery(s: State, t: TaskId, route: Route) {
    t in s.tasks && s.tasks[t].Refreshing? && s.tasks[t].phase.Querying? && s.tasks[t].dispatch.route == route
  }

  /** At most one provider query per route is outstanding, and it belongs to the refresh
      that is in flight for the route. */
  lemma OneQueryPerRoute(hash: Route -> nat, steps: seq<Step>, s: State, t: TaskId, u: TaskId, route: Route)
    requires Run(hash, INITIAL, steps) == Some(s)
    requires OutstandingQuery(s, t, route) && OutstandingQuery(s, u, route)
    ensures t == u
    ensures route in s.inflight && s.inflight[route] in s.refreshes && s.refreshes[s.inflight[route]].owner == t
  {
    InitialInv(hash);
    InvRun(hash, INITIAL, steps);
    assert Runs(s.inflight, s.refreshes, t, s.tasks[t]);
    if t != u { DistinctFlights(s, t, u); }
  }

  /** A refresh that has left the in-flight table has sent exactly one terminal completion,
      one that has not been answered is still being run, and what it sent never changes. */
  lemma OneTerminalCompletion(hash: Route -> nat, past: seq<Step>, future: seq<Step>, s: State, s': State, f: RefreshId)
    requires Run(hash, INITIAL, past) == Some(s) && Run(hash, s, future) == Some(s') && f in s.refreshes
    ensures var refresh := s.refreshes[f];
            && (!(refresh.route in s.inflight && s.inflight[refresh.route] == f) ==>
                  refresh.sends == 1 && !refresh.completion.Pending?)
            && (refresh.completion.Pending? ==> refresh.owner in s.tasks && s.tasks[refresh.owner].Refreshing?)
            && (!refresh.completion.Pending? ==> f in s'.refreshes && s'.refreshes[f] == refresh)
  {
    InitialInv(hash);
    InvRun(hash, INITIAL, past);
    RemembersRun(hash, s, future);
    var t := s.refreshes[f].owner;
    assert Owned(s.tasks, f, s.refreshes[f]);
    assert Runs(s.inflight, s.refreshes, t, s.tasks[t]);
  }

  /** A completion finds its own refresh in the table and removes that entry alone. */
  lemma CompletionRemovesOwnEntry(hash: Route -> nat, steps: seq<Step>, s: State, step: Step, m: Move)
    requires Run(hash, INITIAL, steps) == Some(s) && Plan(hash, s, step) == Some(m) && m.effect.Retire?
    ensures m.effect.route in s.inflight && s.inflight[m.effect.route] == m.effect.refreshId
    ensures m.effect.refreshId in s.refreshes && s.refreshes[m.effect.refreshId].owner == m.task
    ensures s.refreshes[m.effect.refreshId].sends == 1
    ensures Apply(s, m).inflight == s.inflight - {m.effect.route}
  {
    InitialInv(hash);
    InvRun(hash, INITIAL, steps);
    MoveIsTerminal(hash, s, step);
    PlanFlight(hash, s, step);
    RetireIsOwn(s, m);
  }

  lemma RetireIsOwn(s: State, m: Move)
    requires FlightOk(s) && FlightFacts(s, m) && m.effect.Retire?
    ensures m.effect.route in s.inflight && s.inflight[m.effect.route] == m.effect.refreshId
    ensures m.effect.refreshId in s.refreshes && s.refreshes[m.effect.refreshId].owner == m.task
    ensures s.refreshes[m.effect.refreshId].sends == 1
    ensures Apply(s, m).inflight == s.inflight - {m.effect.route}
  {
    assert Runs(s.inflight, s.refreshes, m.task, s.tasks[m.task]);
  }

  // ---- route states do not leak -----------------------------------------------------------------

  /** Each active route state is held by an unfinished GET outcome or a refresh, and when it
      is held by a refresh, that refresh is in flight for the route. */
  lemma ActiveStatesAreHeld(hash: Route -> nat, steps: seq<Step>, s: State, route: Route)
    requires Run(hash, INITIAL, steps) == Some(s) && route in s.active
    ensures exists t :: t in s.tasks && Claims(s.tasks[t], Lead(route, s.active[route])) &&
              (s.tasks[t].Refreshing? ==> route in s.inflight && s.inflight[route] == s.tasks[t].refresh)
  {
    InitialInv(hash);
    InvRun(hash, INITIAL, steps);
    var t := HolderOf(s, route);
  }

  lemma HolderOf(s: State, route: Route) returns (t: TaskId)
    requires FlightOk(s) && ClaimsOk(s) && route in s.active
    ensures t in s.tasks && Claims(s.tasks[t], Lead(route, s.active[route]))
    ensures s.tasks[t].Refreshing? ==> route in s.inflight && s.inflight[route] == s.tasks[t].refresh
  {
    t :| t in s.tasks && Claims(s.tasks[t], Lead(route, s.active[route]));
    assert Runs(s.inflight, s.refreshes, t, s.tasks[t]);
  }

  /** With no GET outcome outstanding and no refresh in flight the route map is empty. */
  lemma QuiescentBrokerHoldsNoRoutes(hash: Route -> nat, steps: seq<Step>, s: State)
    requires Run(hash, INITIAL, steps) == Some(s)
    requires forall t | t in s.tasks :: s.tasks[t].Committing? || s.tasks[t].Done?
    ensures s.active == map[] && s.inflight == map[]
  {
    InitialInv(hash);
    InvRun(hash, INITIAL, steps);
    NothingHeld(s);
  }

  lemma NothingHeld(s: State)
    requires FlightOk(s) && ClaimsOk(s) && forall t | t in s.tasks :: s.tasks[t].Committing? || s.tasks[t].Done?
    ensures s.active == map[] && s.inflight == map[]
  {
    forall r | r in s.active ensures false {
      var t := HolderOf(s, r);
    }
    forall r | r in s.inflight ensures false {
      InflightIsRun(s, r);
    }
  }

  lemma InflightIsRun(s: State, route: Route)
    requires FlightOk(s) && route in s.inflight
    ensures exists t :: t in s.tasks && s.tasks[t].Refreshing?
  {
    assert Owned(s.tasks, s.inflight[route], s.refreshes[s.inflight[route]]);
  }

  // ---- a Set that finds its route inactive ------------------------------------------------------

  /** Such a Set has nothing left to do but to be recorded. */
  predicate IdleIfUnfound(task: Task) {
    task.Committing? && task.scopes != [] && task.scopes[0].One? && !task.found && !task.pc.Next? ==>
      task.pc == Draining({})
  }

  ghost predicate UnfoundSetsIdle(s: State) { forall t | t in s.tasks :: IdleIfUnfound(s.tasks[t]) }

  lemma UnfoundStep(hash: Route -> nat, s: State, step: Step)
    requires UnfoundSetsIdle(s) && Plan(hash, s, step).Some?
    ensures UnfoundSetsIdle(Apply(s, Plan(hash, s, step).value))
  {
    var m := Plan(hash, s, step).value;
    assert m.task == step.task;
    if step.Record? { assert IdleIfUnfound(s.tasks[step.task]); }
    assert IdleIfUnfound(m.next);
  }

  lemma {:induction false} UnfoundRun(hash: Route -> nat, s: State, steps: seq<Step>)
    requires UnfoundSetsIdle(s) && Run(hash, s, steps).Some?
    ensures UnfoundSetsIdle(Run(hash, s, steps).value)
    decreases |steps|
  {
    if steps != [] {
      UnfoundStep(hash, s, steps[0]);
      UnfoundRun(hash, Apply(s, Plan(hash, s, steps[0]).value), steps[1..]);
    }
  }

  /** In every run, the recording of a Set touches a marker only if it found its route active, and
      then that route's alone. */
  lemma SetTouchesMarkerOnlyIfFound(hash: Route -> nat, steps: seq<Step>, s: State, t: TaskId, choice: Choice, m: Move)
    requires Run(hash, INITIAL, steps) == Some(s) && Plan(hash, s, Record(t, choice)) == Some(m)
    requires s.tasks[t].scopes != [] && s.tasks[t].scopes[0].One?
    ensures Apply(s, m).markers == s.markers
            || (s.tasks[t].found && Apply(s, m).markers == s.markers - {s.tasks[t].scopes[0].route})
  {
    UnfoundRun(hash, INITIAL, steps);
    InitialInv(hash);
    InvRun(hash, INITIAL, steps);
    assert IdleIfUnfound(s.tasks[t]) && TaskOk(s.states, s.admitted, s.tasks[t]);
    RecordingTouches(hash, s, t, s.tasks[t], choice);
  }

  lemma RecordingTouches(hash: Route -> nat, s: State, t: TaskId, c: Task, choice: Choice)
    requires c.Committing? && c.scopes != [] && c.scopes[0].One? && IdleIfUnfound(c)
             && CommitOk(s.states, c.scopes, c.pc)
    requires RecordMove(hash, s, t, c, choice).Some?
    ensures var markers := Do(s, RecordMove(hash, s, t, c, choice).value.effect).markers;
            markers == s.markers || (c.found && markers == s.markers - {c.scopes[0].route})
  {
    if c.pc.Invalidating? {
      assert c.pc.lead in Leads(c.pc);
    } else {
      ExactEffect(hash, s, t, c, choice);
    }
  }

  /** An exact commit touches markers nowhere else. */
  lemma ExactEffect(hash: Route -> nat, s: State, t: TaskId, c: Task, choice: Choice)
    requires c.Committing? && c.scopes != [] && c.scopes[0].One? && !c.pc.Invalidating?
    requires RecordMove(hash, s, t, c, choice).Some?
    ensures var e := RecordMove(hash, s, t, c, choice).value.effect;
            && !e.Mark? && !e.Unmark?
            && (e.Settle? ==> e.left == s.markers)
  {
  }

  // ---- quiet runs -------------------------------------------------------------------------------

  /** A joiner that releases its id at once is never late, so that runs in which the
      lookup and the mismatched release are one step are quiet. */
  lemma ImmediateReleaseIsNotLate(hash: Route -> nat, s: State, t: TaskId, f: RefreshId, spawned: TaskId)
    requires Plan(hash, s, Finish(t, f, spawned)).Some?
    requires Plan(hash, s, Finish(t, f, spawned)).value.next.Mismatched?
    ensures !Late(Apply(s, Plan(hash, s, Finish(t, f, spawned)).value), DropMismatched(t))
  {
  }

  /** Every mismatched release directly follows the lookup of the same joiner. */
  predicate Prompt(steps: seq<Step>) {
    forall i | 0 <= i < |steps| && steps[i].DropMismatched? ::
      i > 0 && steps[i - 1].Finish? && steps[i - 1].task == steps[i].task
  }

  /** What is left of a prompt run after its first step. */
  predicate PromptRest(steps: seq<Step>) {
    forall i | 1 <= i < |steps| && steps[i].DropMismatched? ::
        steps[i - 1].Finish? && steps[i - 1].task == steps[i].task
  }

  lemma PromptStepIsNotLate(hash: Route -> nat, s: State, first: Step, second: Step)
    requires Plan(hash, s, first).Some? && first.Finish? && second == DropMismatched(first.task)
    requires Plan(hash, Apply(s, Plan(hash, s, first).value), second).Some?
    ensures !Late(Apply(s, Plan(hash, s, first).value), second)
  {
    ImmediateReleaseIsNotLate(hash, s, first.task, first.refresh, first.spawned);
  }

  lemma {:induction false} PromptRestIsQuiet(hash: Route -> nat, s: State, steps: seq<Step>)
    requires Run(hash, s, steps).Some? && PromptRest(steps) && (steps != [] ==> !Late(s, steps[0]))
    ensures Quiet(hash, s, steps)
    decreases |steps|
  {
    if steps != [] {
      var next := Apply(s, Plan(hash, s, steps[0]).value);
      if |steps| > 1 && steps[1].DropMismatched? {
        assert steps[1..][0] == steps[1] && Plan(hash, next, steps[1]).Some?;
        PromptStepIsNotLate(hash, s, steps[0], steps[1]);
      }
      PromptRestIsQuiet(hash, next, steps[1..]);
    }
  }

  /** A server that released mismatched joiners together with their lookup would have quiet
      runs only. */
  lemma PromptRunsAreQuiet(hash: Route -> nat, steps: seq<Step>)
    requires Run(hash, INITIAL, steps).Some? && Prompt(steps)
    ensures Quiet(hash, INITIAL, steps)
  {
    PromptRestIsQuiet(hash, INITIAL, steps);
  }
}

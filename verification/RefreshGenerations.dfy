/** Mutation generations: a recorded mutation shuts out the miss markers of earlier
    dispatches.  These hold in quiet runs. */
module RefreshGenerations {
  import opened Wrappers
  import opened Routes
  import opened RefreshProtocol
  import opened RefreshInvariants
  import opened RefreshFlight

  /** A dispatch can still turn into a marker only while its route state is active and has
      not been bumped. */
  ghost predicate Live(s: State, d: Dispatch) {
    && d.route in s.active && s.active[d.route] == d.id
    && d.id in s.states && s.states[d.id].generation == d.generation
  }

  ghost predicate Marked(s: State, d: Dispatch) {
    d.route in s.markers && s.markers[d.route] == d
  }

  lemma LiveBefore(s: State, e: Effect, d: Dispatch)
    requires TablesOk(s) && Lawful(s, e) && d in s.admitted && Live(Do(s, e), d)
    ensures Live(s, d) && e != Bump(d.id)
  {
  }

  lemma MarkedBefore(s: State, e: Effect, d: Dispatch)
    requires Lawful(s, e) && Marked(Do(s, e), d)
    ensures (Marked(s, d) && e != Unmark(d.route)) || e == Mark(d)
  {
    if e.Settle? { assert (d.route, d) in e.left.Items; }
  }

  // ---- a confirmation keeps its route state active while it can still mark -------------------

  ghost predicate AnchorsOk(s: State) {
    forall t | t in s.tasks && CanMark(s, s.tasks[t]) ::
      IsActive(s.active, Lead(s.tasks[t].dispatch.route, s.tasks[t].dispatch.id))
  }

  /** The route state that a commit has bumped and whose gate it still holds. */
  function Bumped(task: Task): Option<StateId> {
    if task.Committing? && (task.pc.Invalidating? || task.pc.Leaving?) then Some(task.pc.lead.id) else None
  }

  /** No dispatch has been admitted under a generation that such a commit made. */
  ghost predicate BumpedOk(s: State) {
    forall t, d | t in s.tasks && d in s.admitted && Bumped(s.tasks[t]) == Some(d.id) :: Outdated(s, d)
  }

  ghost predicate Outdated(s: State, d: Dispatch) {
    d.id in s.states && d.generation < s.states[d.id].generation
  }

  ghost predicate InsertsOk(s: State) {
    forall t | t in s.tasks && s.tasks[t].Refreshing? && s.tasks[t].phase.Inserting? ::
      GenerationOf(s, s.tasks[t].dispatch.id) == Some(s.tasks[t].dispatch.generation)
  }

  ghost predicate AnchorFacts(s: State, m: Move) {
    && (m.spawn.NewTask? ==>
          && (m.spawn.task.Refreshing? ==> m.spawn.task.phase.RateCheck?)
          && m.spawn.id !in s.tasks && m.spawn.id != m.task && Bumped(m.spawn.task).None?)
    && (CanMark(Do(s, m.effect), m.next) ==>
          && !m.effect.Release? && !m.effect.Bump?
          && m.task in s.tasks && s.tasks[m.task].Refreshing? && s.tasks[m.task].dispatch == m.next.dispatch
          && (CanMark(s, s.tasks[m.task]) || IsActive(s.active, Lead(m.next.dispatch.route, m.next.dispatch.id))))
    && (m.next.Refreshing? && m.next.phase.Inserting? ==>
          m.effect.Nothing? && GenerationOf(s, m.next.dispatch.id) == Some(m.next.dispatch.generation))
    && (m.effect.Release? ==>
          && m.task in s.tasks
          && (s.tasks[m.task].Refreshing? || s.tasks[m.task].Mismatched?)
          && s.tasks[m.task].dispatch.route == m.effect.route
          && s.tasks[m.task].dispatch.id == m.effect.id)
    && (m.effect.Bump? ==> GateOfTask(s.tasks, m.task) == Some(m.effect.id))
    && (m.effect.Mark? ==>
          && m.task in s.tasks && s.tasks[m.task].Refreshing? && s.tasks[m.task].phase.Inserting?
          && s.tasks[m.task].dispatch == m.effect.dispatch)
    && (m.effect.Gate? && m.effect.holder.None? ==>
          && m.task in s.tasks
          && (|| (s.tasks[m.task].Refreshing? && s.tasks[m.task].dispatch.id == m.effect.id)
              || Bumped(s.tasks[m.task]) == Some(m.effect.id)))
    && (m.effect.Admit? ==> GateFree(s, m.effect.dispatch.id))
    && (Bumped(m.next).Some? ==>
          || m.effect == Bump(Bumped(m.next).value)
          || (m.task in s.tasks && Bumped(s.tasks[m.task]) == Bumped(m.next) && !m.effect.Admit?))
  }

  /** The move is no late release. */
  ghost predicate NotLate(s: State, m: Move) {
    m.effect.Release? && m.task in s.tasks && s.tasks[m.task].Mismatched? ==>
      !LateRelease(s, m.effect.route, m.effect.id)
  }

  lemma PlanAnchors(hash: Route -> nat, s: State, step: Step)
    requires Plan(hash, s, step).Some?
    ensures AnchorFacts(s, Plan(hash, s, step).value)
  {
    if step.Advance? {
      var task := s.tasks[step.task];
      AdvanceAnchors(s, step.task, task.refresh, task.dispatch, task.phase, step.choice);
    }
  }

  lemma AdvanceAnchors(s: State, t: TaskId, f: RefreshId, d: Dispatch, phase: Phase, choice: Choice)
    requires t in s.tasks && s.tasks[t] == Refreshing(f, d, phase) && AdvanceMove(s, t, f, d, phase, choice).Some?
    ensures AnchorFacts(s, AdvanceMove(s, t, f, d, phase, choice).value)
  {
    AdvanceMarks(s, t, f, d, phase, choice);
  }

  /** A refresh can mark after its step only if it could before, or has just found its state active. */
  lemma AdvanceMarks(s: State, t: TaskId, f: RefreshId, d: Dispatch, phase: Phase, choice: Choice)
    requires t in s.tasks && s.tasks[t] == Refreshing(f, d, phase) && AdvanceMove(s, t, f, d, phase, choice).Some?
    ensures var m := AdvanceMove(s, t, f, d, phase, choice).value;
            && (CanMark(Do(s, m.effect), m.next) ==>
                  && !m.effect.Release? && !m.effect.Bump? && m.next.dispatch == d
                  && (CanMark(s, s.tasks[t]) || IsActive(s.active, Lead(d.route, d.id))))
            && (m.next.Refreshing? && m.next.phase.Inserting? ==>
                  m.effect.Nothing? && GenerationOf(s, d.id) == Some(d.generation))
  {
  }

  lemma PlanNotLate(hash: Route -> nat, s: State, step: Step)
    requires Plan(hash, s, step).Some? && !Late(s, step)
    ensures NotLate(s, Plan(hash, s, step).value)
  {
  }

  /** Nothing but its own steps lets a confirmation mark again. */
  lemma CanMarkBefore(s: State, m: Move, t: TaskId)
    requires Shape(s) && FlightOk(s) && BumpedOk(s) && AnchorFacts(s, m) && Lawful(s, m.effect)
    requires t in s.tasks && t != m.task && CanMark(Do(s, m.effect), s.tasks[t])
    ensures CanMark(s, s.tasks[t])
  {
    var d := s.tasks[t].dispatch;
    assert TaskOk(s.states, s.admitted, s.tasks[t]);
    assert Known(s.states, d.route, d.id) && d.generation <= s.states[d.id].generation;
    if m.effect == Gate(d.id, None) {
      GateIsNotGivenBack(s, m, t);
    }
  }

  /** A gate that a commit or another refresh gives back serves no confirmation that could mark. */
  lemma GateIsNotGivenBack(s: State, m: Move, t: TaskId)
    requires Shape(s) && FlightOk(s) && BumpedOk(s) && AnchorFacts(s, m)
    requires t in s.tasks && t != m.task && s.tasks[t].Refreshing? && m.effect == Gate(s.tasks[t].dispatch.id, None)
    ensures GenerationOf(s, s.tasks[t].dispatch.id) != Some(s.tasks[t].dispatch.generation)
  {
    var d := s.tasks[t].dispatch;
    assert TaskOk(s.states, s.admitted, s.tasks[t]) && TaskOk(s.states, s.admitted, s.tasks[m.task]);
    if s.tasks[m.task].Refreshing? {
      assert Known(s.states, d.route, d.id);
      assert Known(s.states, s.tasks[m.task].dispatch.route, d.id);
      DistinctFlights(s, t, m.task);
    } else {
      assert Outdated(s, d);
    }
  }

  lemma AnchorKept(s: State, m: Move, t: TaskId)
    requires FlightOk(s) && AnchorsOk(s) && AnchorFacts(s, m) && NotLate(s, m)
    requires t in s.tasks && t != m.task && CanMark(s, s.tasks[t])
    requires m.effect.Create? ==> m.effect.route !in s.active
    ensures IsActive(Do(s, m.effect).active, Lead(s.tasks[t].dispatch.route, s.tasks[t].dispatch.id))
  {
    var d := s.tasks[t].dispatch;
    assert Runs(s.inflight, s.refreshes, t, s.tasks[t]);
    if m.effect == Release(d.route, d.id) && s.tasks[m.task].Refreshing? {
      DistinctFlights(s, t, m.task);
    }
  }

  lemma AnchorsStep(s: State, m: Move)
    requires Shape(s) && FlightOk(s) && AnchorsOk(s) && BumpedOk(s)
    requires AnchorFacts(s, m) && NotLate(s, m) && Lawful(s, m.effect)
    ensures AnchorsOk(Apply(s, m))
  {
    var s' := Apply(s, m);
    ApplyTasks(s, m);
    forall t | t in s'.tasks && CanMark(s', s'.tasks[t])
      ensures IsActive(s'.active, Lead(s'.tasks[t].dispatch.route, s'.tasks[t].dispatch.id))
    {
      assert CanMark(Do(s, m.effect), s'.tasks[t]);
      if t == m.task {
        AnchorMoved(s, m);
      } else {
        CanMarkBefore(s, m, t);
        AnchorKept(s, m, t);
      }
    }
  }

  lemma AnchorMoved(s: State, m: Move)
    requires AnchorsOk(s) && AnchorFacts(s, m) && Lawful(s, m.effect) && CanMark(Do(s, m.effect), m.next)
    ensures IsActive(Do(s, m.effect).active, Lead(m.next.dispatch.route, m.next.dispatch.id))
  {
  }

  lemma OutdatedKept(s: State, e: Effect, d: Dispatch)
    requires Outdated(s, d) && Lawful(s, e)
    ensures Outdated(Do(s, e), d)
  {
  }

  lemma BumpedStep(s: State, m: Move)
    requires Shape(s) && GatesOk(s.states, s.tasks) && BumpedOk(s) && AnchorFacts(s, m) && Lawful(s, m.effect)
    ensures BumpedOk(Apply(s, m))
  {
    var s' := Apply(s, m);
    ApplyTasks(s, m);
    forall t, d | t in s'.tasks && d in s'.admitted && Bumped(s'.tasks[t]) == Some(d.id)
      ensures Outdated(s', d)
    {
      BumpedDispatch(s, m, t, d);
      assert s'.states == Do(s, m.effect).states;
    }
  }

  lemma BumpedDispatch(s: State, m: Move, t: TaskId, d: Dispatch)
    requires Shape(s) && GatesOk(s.states, s.tasks) && BumpedOk(s) && AnchorFacts(s, m) && Lawful(s, m.effect)
    requires t in Apply(s, m).tasks && d in Do(s, m.effect).admitted && Bumped(Apply(s, m).tasks[t]) == Some(d.id)
    ensures Outdated(Do(s, m.effect), d)
  {
    ApplyTasks(s, m);
    if t == m.task && m.effect == Bump(d.id) {
      assert d in s.admitted && Known(s.states, d.route, d.id);
    } else {
      assert t in s.tasks && Bumped(s.tasks[t]) == Some(d.id);
      BumpedBefore(s, m.effect, t, d);
    }
  }

  /** While the commit holds the gate, nothing is admitted under the id. */
  lemma BumpedBefore(s: State, e: Effect, t: TaskId, d: Dispatch)
    requires GatesOk(s.states, s.tasks) && BumpedOk(s) && Lawful(s, e) && (e.Admit? ==> GateFree(s, e.dispatch.id))
    requires t in s.tasks && Bumped(s.tasks[t]) == Some(d.id) && d in Do(s, e).admitted
    ensures Outdated(Do(s, e), d)
  {
    assert GateOf(s.tasks[t]) == Some(d.id);
    assert !GateFree(s, d.id);
    assert d in s.admitted;
    OutdatedKept(s, e, d);
  }

  /** The gate keeps a mutation from bumping a generation that is about to be used. */
  lemma InsertKept(s: State, m: Move, t: TaskId)
    requires InsertsOk(s) && AnchorFacts(s, m) && Lawful(s, m.effect) && GatesOk(s.states, s.tasks)
    requires t in s.tasks && t != m.task && s.tasks[t].Refreshing? && s.tasks[t].phase.Inserting?
    ensures GenerationOf(Do(s, m.effect), s.tasks[t].dispatch.id) == Some(s.tasks[t].dispatch.generation)
  {
    assert GateOf(s.tasks[t]) == Some(s.tasks[t].dispatch.id);
  }

  lemma InsertsStep(s: State, m: Move)
    requires InsertsOk(s) && AnchorFacts(s, m) && Lawful(s, m.effect) && GatesOk(s.states, s.tasks)
    ensures InsertsOk(Apply(s, m))
  {
    var s' := Apply(s, m);
    ApplyTasks(s, m);
    forall t | t in s'.tasks && s'.tasks[t].Refreshing? && s'.tasks[t].phase.Inserting?
      ensures GenerationOf(s', s'.tasks[t].dispatch.id) == Some(s'.tasks[t].dispatch.generation)
    {
      if t != m.task { InsertKept(s, m, t); }
    }
  }

  /** A marker is only inserted for a live dispatch. */
  lemma MarkIsLive(s: State, m: Move)
    requires AnchorsOk(s) && InsertsOk(s) && AnchorFacts(s, m) && m.effect.Mark?
    ensures Live(s, m.effect.dispatch)
  {
  }

  // ---- how far a mutation has got -----------------------------------------------------------

  predicate LeadOf(d: Dispatch, leads: set<Lead>) { Lead(d.route, d.id) in leads }

  /** Every earlier dispatch the scope covers is shut out, or its state is still to be bumped. */
  ghost predicate Outstanding(s: State, scope: Scope, before: set<Dispatch>, leads: set<Lead>) {
    forall d | d in before && Covers(scope, d.route) && Live(s, d) :: LeadOf(d, leads)
  }

  ghost predicate Scanned(hash: Route -> nat, s: State, scope: Scope, before: set<Dispatch>, shard: nat,
                          leads: set<Lead>) {
    forall d | d in before && Covers(scope, d.route) && Live(s, d) && Shard(hash, d.route) < shard :: LeadOf(d, leads)
  }

  ghost predicate Unmarked(s: State, scope: Scope, before: set<Dispatch>) {
    forall d | d in before && Covers(scope, d.route) :: !Marked(s, d)
  }

  ghost predicate Progress(hash: Route -> nat, s: State, scope: Scope, before: set<Dispatch>, found: bool,
                           pc: CommitPc) {
    match pc
    case Next => true
    case Scanning(shard, leads) => Scanned(hash, s, scope, before, shard, leads)
    case Draining(leads) =>
      && Outstanding(s, scope, before, leads)
      && (scope.One? ==> (forall l, l' | l in leads && l' in leads :: l == l'))
      && (scope.One? && found && leads == {} ==> Unmarked(s, scope, before))
    case Locking(lead, leads) =>
      Outstanding(s, scope, before, leads + {lead}) && (scope.One? ==> leads == {})
    case Bumping(lead, leads) =>
      Outstanding(s, scope, before, leads + {lead}) && (scope.One? ==> leads == {})
    case Invalidating(lead, leads) =>
      Outstanding(s, scope, before, leads) && (scope.One? ==> leads == {} && lead.route == scope.route)
    case Leaving(lead, leads) =>
      && Outstanding(s, scope, before, leads)
      && (scope.One? ==> leads == {} && Unmarked(s, scope, before))
  }

  ghost predicate TaskProgress(hash: Route -> nat, s: State, task: Task) {
    task.Committing? && task.scopes != [] ==>
      Progress(hash, s, task.scopes[0], task.before, task.found, task.pc)
  }

  ghost predicate ProgressOk(hash: Route -> nat, s: State) {
    forall t | t in s.tasks :: TaskProgress(hash, s, s.tasks[t])
  }

  /** Nothing becomes live, and only live dispatches become marked. */
  ghost predicate Ages(s: State, s': State) {
    && (forall d | d in s.admitted && Live(s', d) :: Live(s, d))
    && (forall d | d in s.admitted && Marked(s', d) :: Marked(s, d) || Live(s, d))
  }

  lemma MoveAges(s: State, m: Move)
    requires TablesOk(s) && Lawful(s, m.effect) && AnchorFacts(s, m) && AnchorsOk(s) && InsertsOk(s)
    ensures Ages(s, Do(s, m.effect))
  {
    var s' := Do(s, m.effect);
    forall d | d in s.admitted && Live(s', d) ensures Live(s, d) { LiveBefore(s, m.effect, d); }
    forall d | d in s.admitted && Marked(s', d)
      ensures Marked(s, d) || Live(s, d)
    {
      MarkedBefore(s, m.effect, d);
      if m.effect == Mark(d) { MarkIsLive(s, m); }
    }
  }

  lemma ProgressKept(hash: Route -> nat, s: State, s': State, scope: Scope, before: set<Dispatch>, found: bool,
                     pc: CommitPc)
    requires Ages(s, s') && before <= s.admitted && Progress(hash, s, scope, before, found, pc)
    ensures Progress(hash, s', scope, before, found, pc)
  {
  }

  // ---- one lemma for each step of a mutation ---------------------------------------------------

  lemma StartOne(s: State, route: Route, before: set<Dispatch>)
    ensures var leads := if route in s.active then {Lead(route, s.active[route])} else {};
            Outstanding(s, One(route), before, leads)
  {
  }

  lemma ScanShard(hash: Route -> nat, s: State, scope: Scope, before: set<Dispatch>, shard: nat, leads: set<Lead>)
    requires scope.Many? && Scanned(hash, s, scope, before, shard, leads)
    ensures Scanned(hash, s, scope, before, shard + 1, leads + ShardLeads(hash, s, scope.namespace, shard))
  {
  }

  lemma ScanEnd(hash: Route -> nat, s: State, scope: Scope, before: set<Dispatch>, leads: set<Lead>)
    requires Scanned(hash, s, scope, before, MUTATION_SHARD_COUNT, leads)
    ensures Outstanding(s, scope, before, leads)
  {
  }

  lemma SkipLead(s: State, scope: Scope, before: set<Dispatch>, leads: set<Lead>, lead: Lead)
    requires Outstanding(s, scope, before, leads) && !Covers(scope, lead.route)
    ensures Outstanding(s, scope, before, leads - {lead})
  {
  }

  lemma BumpLead(s: State, scope: Scope, before: set<Dispatch>, leads: set<Lead>, lead: Lead)
    requires TablesOk(s) && before <= s.admitted && Outstanding(s, scope, before, leads + {lead})
    ensures Outstanding(Do(s, Bump(lead.id)), scope, before, leads)
  {
    var s' := Do(s, Bump(lead.id));
    forall d | d in before && Covers(scope, d.route) && Live(s', d)
      ensures LeadOf(d, leads)
    {
      LiveBefore(s, Bump(lead.id), d);
    }
  }

  lemma RecordProgress(hash: Route -> nat, s: State, t: TaskId, c: Task, choice: Choice)
    requires c.Committing? && c.scopes != [] && TaskOk(s.states, s.admitted, c) && TablesOk(s)
    requires Progress(hash, s, c.scopes[0], c.before, c.found, c.pc)
    requires RecordMove(hash, s, t, c, choice).Some?
    requires Ages(s, Do(s, RecordMove(hash, s, t, c, choice).value.effect))
    ensures var m := RecordMove(hash, s, t, c, choice).value;
            TaskProgress(hash, Do(s, m.effect), m.next)
  {
    var m := RecordMove(hash, s, t, c, choice).value;
    var s' := Do(s, m.effect);
    var scope := c.scopes[0];
    match c.pc
    case Next =>
      if scope.One? { StartOne(s, scope.route, s.admitted); }
    case Scanning(shard, leads) =>
      if shard >= MUTATION_SHARD_COUNT {
        ScanEnd(hash, s, scope, c.before, leads);
      } else {
        ScanShard(hash, s, scope, c.before, shard, leads);
      }
    case Draining(leads) =>
      if leads != {} {
        if Covers(scope, choice.lead.route) {
          assert leads - {choice.lead} + {choice.lead} == leads;
        } else {
          SkipLead(s, scope, c.before, leads, choice.lead);
        }
      }
    case Locking(lead, leads) =>
      ProgressKept(hash, s, s', scope, c.before, c.found, Bumping(lead, leads));
    case Bumping(lead, leads) =>
      BumpLead(s, scope, c.before, leads, lead);
    case Invalidating(lead, leads) =>
      ProgressKept(hash, s, s', scope, c.before, c.found, c.pc);
    case Leaving(lead, leads) =>
      ProgressKept(hash, s, s', scope, c.before, c.found, c.pc);
  }

  // ---- recorded mutations ---------------------------------------------------------------------

  /** What a recorded mutation guarantees for good: no earlier dispatch it covers can be
      marked any more, and, unless an exact mutation found its route inactive, none is. */
  ghost predicate ShutOut(s: State, record: Recorded) {
    forall d | d in record.before && Covers(record.scope, d.route) ::
      && !Live(s, d)
      && (record.scope.Many? || record.found ==> !Marked(s, d))
  }

  ghost predicate RecordsOk(s: State) {
    forall record | record in s.recorded :: ShutOut(s, record)
  }

  lemma ShutOutKept(s: State, s': State, record: Recorded)
    requires Ages(s, s') && record.before <= s.admitted && ShutOut(s, record)
    ensures ShutOut(s', record)
  {
  }

  lemma SettledIsShutOut(hash: Route -> nat, s: State, t: TaskId, c: Task, choice: Choice)
    requires c.Committing? && c.scopes != [] && TaskOk(s.states, s.admitted, c)
    requires Progress(hash, s, c.scopes[0], c.before, c.found, c.pc)
    requires RecordMove(hash, s, t, c, choice).Some? && RecordMove(hash, s, t, c, choice).value.effect.Settle?
    requires Ages(s, Do(s, RecordMove(hash, s, t, c, choice).value.effect))
    ensures var e := RecordMove(hash, s, t, c, choice).value.effect;
            ShutOut(Do(s, e), e.record)
  {
    var e := RecordMove(hash, s, t, c, choice).value.effect;
    var s' := Do(s, e);
    forall d | d in e.record.before && Covers(e.record.scope, d.route)
      ensures !Live(s', d)
      ensures e.record.scope.Many? || e.record.found ==> !Marked(s', d)
    {
      assert d in s.admitted && !Live(s, d);
    }
  }

  // ---- all together -------------------------------------------------------------------------------

  ghost predicate Safe(hash: Route -> nat, s: State) {
    AnchorsOk(s) && BumpedOk(s) && InsertsOk(s) && ProgressOk(hash, s) && RecordsOk(s)
  }

  lemma ProgressStep(hash: Route -> nat, s: State, step: Step)
    requires Shape(s) && ProgressOk(hash, s) && Plan(hash, s, step).Some?
    requires Ages(s, Do(s, Plan(hash, s, step).value.effect))
    requires AnchorFacts(s, Plan(hash, s, step).value)
    ensures ProgressOk(hash, Apply(s, Plan(hash, s, step).value))
  {
    var m := Plan(hash, s, step).value;
    var s' := Apply(s, m);
    ApplyTasks(s, m);
    MovedProgress(hash, s, step);
    forall t | t in s'.tasks
      ensures TaskProgress(hash, s', s'.tasks[t])
    {
      if t == m.task || (m.spawn.NewTask? && t == m.spawn.id) {
        SameTables(hash, Do(s, m.effect), s', s'.tasks[t]);
      } else {
        OtherProgress(hash, s, s', s.tasks[t]);
      }
    }
  }

  lemma OtherProgress(hash: Route -> nat, s: State, s': State, task: Task)
    requires TaskOk(s.states, s.admitted, task) && TaskProgress(hash, s, task) && Ages(s, s')
    ensures TaskProgress(hash, s', task)
  {
    if task.Committing? && task.scopes != [] {
      ProgressKept(hash, s, s', task.scopes[0], task.before, task.found, task.pc);
    }
  }

  lemma SameTables(hash: Route -> nat, s: State, s': State, task: Task)
    requires TaskProgress(hash, s, task)
    requires s'.active == s.active && s'.states == s.states && s'.markers == s.markers
    ensures TaskProgress(hash, s', task)
  {
    assert forall d :: Live(s', d) == Live(s, d) && Marked(s', d) == Marked(s, d);
  }

  lemma MovedProgress(hash: Route -> nat, s: State, step: Step)
    requires Shape(s) && ProgressOk(hash, s) && Plan(hash, s, step).Some?
    requires Ages(s, Do(s, Plan(hash, s, step).value.effect))
    ensures var m := Plan(hash, s, step).value;
            && TaskProgress(hash, Do(s, m.effect), m.next)
            && (m.spawn.NewTask? ==> TaskProgress(hash, Do(s, m.effect), m.spawn.task))
  {
    if step.Record? {
      if s.tasks[step.task].scopes != [] {
        var t := step.task;
        assert TaskOk(s.states, s.admitted, s.tasks[t]) && TaskProgress(hash, s, s.tasks[t]);
        RecordProgress(hash, s, t, s.tasks[t], step.choice);
      }
    } else {
      OthersProgress(hash, s, step);
    }
  }

  /** Steps other than those of a commit do not leave a task with a scan to account for. */
  lemma OthersProgress(hash: Route -> nat, s: State, step: Step)
    requires Plan(hash, s, step).Some? && !step.Record?
    ensures var m := Plan(hash, s, step).value;
            && TaskProgress(hash, Do(s, m.effect), m.next)
            && (m.spawn.NewTask? ==> TaskProgress(hash, Do(s, m.effect), m.spawn.task))
  {
  }

  lemma RecordsStep(hash: Route -> nat, s: State, step: Step)
    requires Shape(s) && ProgressOk(hash, s) && RecordsOk(s) && Plan(hash, s, step).Some?
    requires Ages(s, Do(s, Plan(hash, s, step).value.effect))
    ensures RecordsOk(Do(s, Plan(hash, s, step).value.effect))
  {
    var e := Plan(hash, s, step).value.effect;
    var s' := Do(s, e);
    if e.Settle? { SettleShutsOut(hash, s, step); }
    RecordedAfter(s, e);
    RecordsKept(s, s');
  }

  lemma RecordsKept(s: State, s': State)
    requires RecordedOk(s.recorded, s.admitted) && RecordsOk(s) && Ages(s, s')
    ensures forall record | record in s.recorded :: ShutOut(s', record)
  {
    forall record | record in s.recorded
      ensures ShutOut(s', record)
    {
      ShutOutKept(s, s', record);
    }
  }

  lemma SettleShutsOut(hash: Route -> nat, s: State, step: Step)
    requires Shape(s) && ProgressOk(hash, s) && Plan(hash, s, step).Some?
    requires Plan(hash, s, step).value.effect.Settle?
    requires Ages(s, Do(s, Plan(hash, s, step).value.effect))
    ensures var e := Plan(hash, s, step).value.effect;
            e.record.before <= s.admitted && ShutOut(Do(s, e), e.record)
  {
    SettleIsRecord(hash, s, step);
    var t := step.task;
    assert TaskOk(s.states, s.admitted, s.tasks[t]) && TaskProgress(hash, s, s.tasks[t]);
    SettledIsShutOut(hash, s, t, s.tasks[t], step.choice);
  }

  /** Only a commit that has a scope left settles. */
  lemma SettleIsRecord(hash: Route -> nat, s: State, step: Step)
    requires Plan(hash, s, step).Some? && Plan(hash, s, step).value.effect.Settle?
    ensures step.Record? && s.tasks[step.task].scopes != []
    ensures Plan(hash, s, step).value.effect.record.before == s.tasks[step.task].before
  {
  }

  lemma RecordedAfter(s: State, e: Effect)
    ensures Do(s, e).recorded == if e.Settle? then s.recorded + {e.record} else s.recorded
  {
  }
}

/** Shape of the refresh protocol's tables, kept by every step. */
module RefreshInvariants {
  import opened Wrappers
  import opened Routes
  import opened RefreshProtocol

  ghost predicate Known(states: map<StateId, RouteState>, route: Route, id: StateId) {
    id in states && states[id].route == route
  }

  ghost predicate ActiveOk(active: map<Route, StateId>, states: map<StateId, RouteState>) {
    forall r | r in active :: Known(states, r, active[r])
  }

  ghost predicate AdmittedOk(admitted: set<Dispatch>, states: map<StateId, RouteState>) {
    forall d | d in admitted :: Known(states, d.route, d.id) && d.generation <= states[d.id].generation
  }

  ghost predicate MarkersOk(markers: map<Route, Dispatch>, admitted: set<Dispatch>) {
    forall r | r in markers :: markers[r] in admitted && markers[r].route == r
  }

  ghost predicate RecordedOk(recorded: set<Recorded>, admitted: set<Dispatch>) {
    forall m | m in recorded :: m.before <= admitted
  }

  ghost predicate TablesOk(s: State) {
    && ActiveOk(s.active, s.states)
    && AdmittedOk(s.admitted, s.states)
    && MarkersOk(s.markers, s.admitted)
    && RecordedOk(s.recorded, s.admitted)
  }

  /** The facts about an effect that keep the tables well shaped. */
  ghost predicate Lawful(s: State, effect: Effect) {
    match effect
    case Create(r, id) => r !in s.active && id !in s.states
    case Admit(d) => Known(s.states, d.route, d.id) && d.generation == s.states[d.id].generation
    case Mark(d) => d in s.admitted
    case Settle(record, left) => record.before <= s.admitted && left.Items <= s.markers.Items
    case _ => true
  }

  lemma TablesStep(s: State, e: Effect)
    requires TablesOk(s) && Lawful(s, e)
    ensures TablesOk(Do(s, e))
  {
    var s' := Do(s, e);
    forall r | r in s'.markers
      ensures s'.markers[r] in s'.admitted && s'.markers[r].route == r
    {
      if e.Settle? { assert (r, s'.markers[r]) in s.markers.Items; }
    }
  }

  // ---- tasks -------------------------------------------------------------------------------

  ghost function Leads(pc: CommitPc): set<Lead> {
    match pc
    case Next => {}
    case Scanning(_, affected) => affected
    case Draining(affected) => affected
    case Locking(lead, affected) => affected + {lead}
    case Bumping(lead, affected) => affected + {lead}
    case Invalidating(lead, affected) => affected + {lead}
    case Leaving(lead, affected) => affected + {lead}
  }

  ghost predicate CommitOk(states: map<StateId, RouteState>, scopes: seq<Scope>, pc: CommitPc) {
    && (forall l | l in Leads(pc) :: Known(states, l.route, l.id))
    && (!pc.Next? ==> scopes != [])
    && (pc.Scanning? ==> scopes[0].Many? && pc.shard <= MUTATION_SHARD_COUNT)
    && (!pc.Next? && scopes[0].One? ==> forall l | l in Leads(pc) :: l.route == scopes[0].route)
  }

  ghost predicate TaskOk(states: map<StateId, RouteState>, admitted: set<Dispatch>, task: Task) {
    match task
    case Admitting(route, id) => Known(states, route, id)
    case Dispatched(d) => d in admitted
    case Mismatched(d) => d in admitted
    case Refreshing(f, d, phase) =>
      d in admitted && (phase.Releasing? || phase.Publishing? ==> !phase.outcome.Pending?)
    case Committing(scopes, pc, before, found) => before <= admitted && CommitOk(states, scopes, pc)
    case Done => true
  }

  ghost predicate TasksOk(s: State) {
    forall t | t in s.tasks :: TaskOk(s.states, s.admitted, s.tasks[t])
  }

  /** Route states are only created and their generations only grow. */
  ghost predicate StatesGrow(states: map<StateId, RouteState>, states': map<StateId, RouteState>) {
    forall id | id in states ::
      && id in states'
      && states'[id].route == states[id].route
      && states[id].generation <= states'[id].generation
  }

  lemma EffectGrows(s: State, e: Effect)
    requires e.Create? ==> e.id !in s.states
    ensures StatesGrow(s.states, Do(s, e).states) && s.admitted <= Do(s, e).admitted
  {
  }

  lemma TaskOkKept(s: State, s': State, task: Task)
    requires StatesGrow(s.states, s'.states) && s.admitted <= s'.admitted && TaskOk(s.states, s.admitted, task)
    ensures TaskOk(s'.states, s'.admitted, task)
  {
  }

  lemma AdvanceOk(s: State, t: TaskId, f: RefreshId, d: Dispatch, phase: Phase, choice: Choice)
    requires TaskOk(s.states, s.admitted, Refreshing(f, d, phase))
    requires AdvanceMove(s, t, f, d, phase, choice).Some?
    ensures var m := AdvanceMove(s, t, f, d, phase, choice).value;
            && Lawful(s, m.effect)
            && TaskOk(s.states, s.admitted, m.next)
            && (m.spawn.NewTask? ==> TaskOk(s.states, s.admitted, m.spawn.task))
  {
  }

  lemma RecordOk(hash: Route -> nat, s: State, t: TaskId, c: Task, choice: Choice)
    requires c.Committing? && TaskOk(s.states, s.admitted, c) && ActiveOk(s.active, s.states)
    requires RecordMove(hash, s, t, c, choice).Some?
    ensures var m := RecordMove(hash, s, t, c, choice).value;
            && Lawful(s, m.effect)
            && TaskOk(s.states, s.admitted, m.next)
            && m.spawn.NoTask?
  {
    if c.pc.Next? || c.pc.Scanning? { LookupOk(hash, s, t, c, choice); }
  }

  /** The lookup or scan that starts a recording finds known route states. */
  lemma LookupOk(hash: Route -> nat, s: State, t: TaskId, c: Task, choice: Choice)
    requires c.Committing? && TaskOk(s.states, s.admitted, c) && ActiveOk(s.active, s.states)
    requires (c.pc.Next? || c.pc.Scanning?) && RecordMove(hash, s, t, c, choice).Some?
    ensures var m := RecordMove(hash, s, t, c, choice).value;
            m.effect.Nothing? && TaskOk(s.states, s.admitted, m.next) && m.spawn.NoTask?
  {
  }

  lemma PlanOk(hash: Route -> nat, s: State, step: Step)
    requires TablesOk(s) && TasksOk(s) && Plan(hash, s, step).Some?
    ensures var m := Plan(hash, s, step).value;
            && Lawful(s, m.effect)
            && TaskOk(Do(s, m.effect).states, Do(s, m.effect).admitted, m.next)
            && (m.spawn.NewTask? ==> TaskOk(s.states, s.admitted, m.spawn.task))
  {
    var t := step.task;
    if t in s.tasks { assert TaskOk(s.states, s.admitted, s.tasks[t]); }
    var m := Plan(hash, s, step).value;
    match step
    case Advance(_, choice) =>
      AdvanceOk(s, t, s.tasks[t].refresh, s.tasks[t].dispatch, s.tasks[t].phase, choice);
      EffectGrows(s, m.effect);
      TaskOkKept(s, Do(s, m.effect), m.next);
    case Record(_, choice) =>
      RecordOk(hash, s, t, s.tasks[t], choice);
      EffectGrows(s, m.effect);
      TaskOkKept(s, Do(s, m.effect), m.next);
    case _ =>
  }

  ghost predicate Shape(s: State) { TablesOk(s) && TasksOk(s) }

  lemma ShapeStep(hash: Route -> nat, s: State, step: Step)
    requires Shape(s) && Plan(hash, s, step).Some?
    ensures Shape(Apply(s, Plan(hash, s, step).value))
  {
    var m := Plan(hash, s, step).value;
    var s' := Apply(s, m);
    PlanOk(hash, s, step);
    TablesStep(s, m.effect);
    EffectGrows(s, m.effect);
    forall t | t in s'.tasks
      ensures TaskOk(s'.states, s'.admitted, s'.tasks[t])
    {
      if m.spawn.NewTask? && t == m.spawn.id {
        TaskOkKept(s, s', m.spawn.task);
      } else if t != m.task {
        TaskOkKept(s, s', s.tasks[t]);
      }
    }
  }

  // ---- gates ----------------------------------------------------------------------------------

  /** The route state whose gate a task holds at its program point. */
  function GateOf(task: Task): Option<StateId> {
    match task
    case Refreshing(_, d, phase) =>
      if phase.Rechecking? || phase.Inserting? || phase.Dropping? || phase.Unlocking? then Some(d.id) else None
    case Committing(_, pc, _, _) =>
      if pc.Bumping? || pc.Invalidating? || pc.Leaving? then Some(pc.lead.id) else None
    case _ => None
  }

  function GateOfTask(tasks: map<TaskId, Task>, t: TaskId): Option<StateId> {
    if t in tasks then GateOf(tasks[t]) else None
  }

  ghost predicate HeldByTask(states: map<StateId, RouteState>, tasks: map<TaskId, Task>) {
    forall id | id in states && states[id].gate.Some? :: GateOfTask(tasks, states[id].gate.value) == Some(id)
  }

  ghost predicate HeldByState(states: map<StateId, RouteState>, tasks: map<TaskId, Task>) {
    forall t | t in tasks && GateOf(tasks[t]).Some? ::
      GateOf(tasks[t]).value in states && states[GateOf(tasks[t]).value].gate == Some(t)
  }

  /** A gate is held by one task exactly when its program point says so. */
  ghost predicate GatesOk(states: map<StateId, RouteState>, tasks: map<TaskId, Task>) {
    HeldByTask(states, tasks) && HeldByState(states, tasks)
  }

  ghost predicate GateFacts(s: State, m: Move) {
    && (m.spawn.NewTask? ==> GateOf(m.spawn.task).None? && m.spawn.id !in s.tasks && m.spawn.id != m.task)
    && match m.effect
       case Gate(id, Some(t)) =>
         t == m.task && GateFree(s, id) && GateOfTask(s.tasks, t).None? && GateOf(m.next) == Some(id)
       case Gate(id, None) => GateOfTask(s.tasks, m.task) == Some(id) && GateOf(m.next).None?
       case Create(_, id) => id !in s.states && GateOfTask(s.tasks, m.task) == GateOf(m.next)
       case _ => GateOfTask(s.tasks, m.task) == GateOf(m.next)
  }

  lemma PlanGates(hash: Route -> nat, s: State, step: Step)
    requires Plan(hash, s, step).Some?
    ensures GateFacts(s, Plan(hash, s, step).value)
  {
    match step
    case Advance(t, choice) => AdvanceGates(s, t, choice);
    case Record(t, choice) => RecordGates(hash, s, t, choice);
    case _ =>
  }

  lemma AdvanceGates(s: State, t: TaskId, choice: Choice)
    requires t in s.tasks && s.tasks[t].Refreshing?
    requires var task := s.tasks[t]; AdvanceMove(s, t, task.refresh, task.dispatch, task.phase, choice).Some?
    ensures var task := s.tasks[t];
            GateFacts(s, AdvanceMove(s, t, task.refresh, task.dispatch, task.phase, choice).value)
  {
  }

  lemma RecordGates(hash: Route -> nat, s: State, t: TaskId, choice: Choice)
    requires t in s.tasks && s.tasks[t].Committing? && RecordMove(hash, s, t, s.tasks[t], choice).Some?
    ensures GateFacts(s, RecordMove(hash, s, t, s.tasks[t], choice).value)
  {
  }

  lemma GateAfter(s: State, e: Effect, id: StateId)
    requires e.Create? ==> e.id !in s.states
    requires id in Do(s, e).states
    ensures e.Gate? && e.id == id ==> id in s.states && Do(s, e).states[id].gate == e.holder
    ensures !(e.Gate? && e.id == id) && id in s.states ==> Do(s, e).states[id].gate == s.states[id].gate
    ensures id !in s.states ==> Do(s, e).states[id].gate.None?
  {
  }

  lemma HeldByTaskStep(s: State, m: Move)
    requires GatesOk(s.states, s.tasks) && GateFacts(s, m)
    ensures HeldByTask(Apply(s, m).states, Apply(s, m).tasks)
  {
    var s' := Apply(s, m);
    forall id | id in s'.states && s'.states[id].gate.Some?
      ensures GateOfTask(s'.tasks, s'.states[id].gate.value) == Some(id)
    {
      GateAfter(s, m.effect, id);
    }
  }

  lemma HeldByStateStep(s: State, m: Move)
    requires GatesOk(s.states, s.tasks) && GateFacts(s, m)
    ensures HeldByState(Apply(s, m).states, Apply(s, m).tasks)
  {
    var s' := Apply(s, m);
    EffectGrows(s, m.effect);
    forall t | t in s'.tasks && GateOf(s'.tasks[t]).Some?
      ensures GateOf(s'.tasks[t]).value in s'.states && s'.states[GateOf(s'.tasks[t]).value].gate == Some(t)
    {
      var id := GateOf(s'.tasks[t]).value;
      assert id in s.states;
      GateAfter(s, m.effect, id);
    }
  }
}

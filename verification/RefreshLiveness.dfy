/** No reachable state of the refresh protocol is stuck. */
module RefreshLiveness {
  import opened Wrappers
  import opened Routes
  import opened RefreshProtocol
  import opened RefreshInvariants
  import opened RefreshFlight
  import opened RefreshTheorems

  /** A refresh waits only for a commit that it has spawned. */
  ghost predicate ChildrenOk(tasks: map<TaskId, Task>) {
    forall t | t in tasks && tasks[t].Refreshing? && tasks[t].phase.Accepting? :: IsChild(tasks, tasks[t].phase.child)
  }

  predicate IsChild(tasks: map<TaskId, Task>, child: TaskId) {
    child in tasks && (tasks[child].Committing? || tasks[child].Done?)
  }

  ghost predicate ChildFacts(s: State, m: Move) {
    && (m.spawn.NewTask? ==> m.spawn.id !in s.tasks && m.spawn.id != m.task && !WaitsForChild(m.spawn.task))
    && (IsChild(s.tasks, m.task) ==> m.next.Committing? || m.next.Done?)
    && (WaitsForChild(m.next) ==>
          m.spawn.NewTask? && m.spawn.id == m.next.phase.child && m.spawn.task.Committing?)
  }

  predicate WaitsForChild(task: Task) { task.Refreshing? && task.phase.Accepting? }

  lemma PlanChildren(hash: Route -> nat, s: State, step: Step)
    requires Plan(hash, s, step).Some?
    requires step.task in s.tasks ==> !s.tasks[step.task].Done?
    ensures ChildFacts(s, Plan(hash, s, step).value)
  {
  }

  lemma ChildrenStep(s: State, m: Move)
    requires ChildrenOk(s.tasks) && ChildFacts(s, m)
    ensures ChildrenOk(Apply(s, m).tasks)
  {
    var tasks' := Apply(s, m).tasks;
    ApplyTasks(s, m);
    forall t | t in tasks' && tasks'[t].Refreshing? && tasks'[t].phase.Accepting?
      ensures IsChild(tasks', tasks'[t].phase.child)
    {
      if t != m.task { assert t in s.tasks && IsChild(s.tasks, s.tasks[t].phase.child); }
    }
  }

  lemma {:induction false} ChildrenRun(hash: Route -> nat, s: State, steps: seq<Step>)
    requires Inv(s) && ChildrenOk(s.tasks) && Run(hash, s, steps).Some?
    ensures ChildrenOk(Run(hash, s, steps).value.tasks)
    decreases |steps|
  {
    if steps != [] {
      MoveIsTerminal(hash, s, steps[0]);
      PlanChildren(hash, s, steps[0]);
      ChildrenStep(s, Plan(hash, s, steps[0]).value);
      InvStep(hash, s, steps[0]);
      ChildrenRun(hash, Apply(s, Plan(hash, s, steps[0]).value), steps[1..]);
    }
  }

  // ---- some task can move ------------------------------------------------------------------------

  predicate CanMove(hash: Route -> nat, s: State, step: Step) {
    step.task in s.tasks && Plan(hash, s, step).Some?
  }

  lemma {:induction false} FreshNat(used: set<nat>) returns (n: nat)
    ensures n !in used && forall u | u in used :: u < n
  {
    if used == {} {
      n := 0;
    } else {
      var u :| u in used;
      var rest := FreshNat(used - {u});
      n := if rest <= u then u + 1 else rest;
      assert used == used - {u} + {u};
    }
  }

  /** Whoever holds a gate can go on. */
  lemma GateHolderMoves(hash: Route -> nat, s: State, id: StateId) returns (step: Step)
    requires Inv(s) && id in s.states && s.states[id].gate.Some?
    ensures CanMove(hash, s, step)
  {
    var t := s.states[id].gate.value;
    assert GateOfTask(s.tasks, t) == Some(id);
    assert TaskOk(s.states, s.admitted, s.tasks[t]);
    step := HolderMoves(hash, s, t);
  }

  lemma HolderMoves(hash: Route -> nat, s: State, t: TaskId) returns (step: Step)
    requires t in s.tasks && TaskOk(s.states, s.admitted, s.tasks[t]) && GateOf(s.tasks[t]).Some?
    ensures CanMove(hash, s, step)
  {
    step := if s.tasks[t].Refreshing? then Advance(t, Go) else Record(t, Go);
  }

  lemma CommitMoves(hash: Route -> nat, s: State, t: TaskId) returns (step: Step)
    requires Inv(s) && t in s.tasks && s.tasks[t].Committing?
    ensures CanMove(hash, s, step)
  {
    var pc := s.tasks[t].pc;
    assert TaskOk(s.states, s.admitted, s.tasks[t]);
    if pc.Draining? && pc.affected != {} {
      var lead :| lead in pc.affected;
      step := Record(t, Pick(lead));
    } else if pc.Locking? && !GateFree(s, pc.lead.id) {
      assert Known(s.states, pc.lead.route, pc.lead.id);
      step := GateHolderMoves(hash, s, pc.lead.id);
    } else {
      step := Record(t, Go);
    }
  }

  lemma RefreshMoves(hash: Route -> nat, s: State, t: TaskId) returns (step: Step)
    requires Inv(s) && ChildrenOk(s.tasks) && t in s.tasks && s.tasks[t].Refreshing?
    ensures CanMove(hash, s, step)
  {
    var phase := s.tasks[t].phase;
    assert TaskOk(s.states, s.admitted, s.tasks[t]);
    if phase.Accepting? && !s.tasks[phase.child].Done? {
      step := CommitMoves(hash, s, phase.child);
    } else if phase.Gating? && !GateFree(s, s.tasks[t].dispatch.id) {
      step := GateHolderMoves(hash, s, s.tasks[t].dispatch.id);
    } else {
      step := UnheldMoves(hash, s, t);
    }
  }

  /** A refresh that waits neither for its commit nor for a gate can go on. */
  lemma UnheldMoves(hash: Route -> nat, s: State, t: TaskId) returns (step: Step)
    requires t in s.tasks && s.tasks[t].Refreshing?
    requires s.tasks[t].phase.Accepting? ==> s.tasks[t].phase.child in s.tasks && s.tasks[s.tasks[t].phase.child].Done?
    requires s.tasks[t].phase.Gating? ==> GateFree(s, s.tasks[t].dispatch.id)
    ensures CanMove(hash, s, step)
  {
    step := Advance(t, if s.tasks[t].phase.Querying? then Answered(Lost) else Go);
  }

  /** In every reachable state with an unfinished task some started task can take its next
      step, so that gates never deadlock and no waiter is stranded. */
  lemma NoDeadlock(hash: Route -> nat, steps: seq<Step>, s: State, t: TaskId)
    requires Run(hash, INITIAL, steps) == Some(s) && t in s.tasks && !s.tasks[t].Done?
    ensures exists step :: CanMove(hash, s, step)
  {
    InitialInv(hash);
    InvRun(hash, INITIAL, steps);
    ChildrenRun(hash, INITIAL, steps);
    var step := TaskMoves(hash, s, t);
  }

  lemma TaskMoves(hash: Route -> nat, s: State, t: TaskId) returns (step: Step)
    requires Inv(s) && ChildrenOk(s.tasks) && t in s.tasks && !s.tasks[t].Done?
    ensures CanMove(hash, s, step)
  {
    assert TaskOk(s.states, s.admitted, s.tasks[t]);
    match s.tasks[t]
    case Admitting(route, id) =>
      if GateFree(s, id) { step := ReadGeneration(t); } else { step := GateHolderMoves(hash, s, id); }
    case Dispatched(_) =>
      var f := FreshNat(s.refreshes.Keys);
      var u := FreshNat(s.tasks.Keys);
      step := Finish(t, f, u);
    case Mismatched(_) => step := DropMismatched(t);
    case Refreshing(_, _, _) => step := RefreshMoves(hash, s, t);
    case Committing(_, _, _, _) => step := CommitMoves(hash, s, t);
  }
}

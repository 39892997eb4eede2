/** Without new arrivals, every run of the refresh protocol ends, and it ends with every refresh
    completed. */
module RefreshTermination {
  import opened Wrappers
  import opened Routes
  import opened Sums
  import opened RefreshProtocol
  import opened RefreshInvariants
  import opened RefreshFlight
  import opened RefreshTheorems
  import opened RefreshLiveness

  // ---- how much a task can still do -------------------------------------------------------------------

  /** Draining takes at most five steps for a lead, and one to settle. */
  function DrainRank(affected: set<Lead>): nat { 5 * |affected| + 1 }

  /** The steps that recording one scope can take at a point, when `a` routes are active. */
  function PcRank(pc: CommitPc, a: nat): nat {
    match pc
    case Next => 0
    case Scanning(shard, affected) =>
      (if shard < MUTATION_SHARD_COUNT then (MUTATION_SHARD_COUNT - shard) * (5 * a + 1) else 0)
      + DrainRank(affected) + 1
    case Draining(affected) => DrainRank(affected)
    case Locking(_, affected) => DrainRank(affected) + 4
    case Bumping(_, affected) => DrainRank(affected) + 3
    case Invalidating(_, affected) => DrainRank(affected) + 2
    case Leaving(_, affected) => DrainRank(affected) + 1
  }

  function ScopeRank(a: nat): nat { MUTATION_SHARD_COUNT * (5 * a + 1) + 7 }

  function CommitRank(scopes: seq<Scope>, pc: CommitPc, a: nat): nat {
    if pc.Next? || scopes == [] then ScopesRank(|scopes|, a) + 1
    else ScopesRank(|scopes| - 1, a) + 1 + PcRank(pc, a)
  }

  function ScopesRank(n: nat, a: nat): nat { if n == 0 then 0 else ScopesRank(n - 1, a) + ScopeRank(a) }

  function PhaseRank(phase: Phase, a: nat): nat {
    match phase
    case RateCheck => ScopeRank(a) + 14
    case Querying => ScopeRank(a) + 13
    case Looking => 11
    case Checking => 10
    case Reading => 9
    case Gating => 8
    case Rechecking => 7
    case Inserting => 6
    case Dropping => 5
    case Unlocking => 4
    case Accepting(_) => 4
    case Releasing(_) => 3
    case Publishing(_) => 2
    case Removing => 1
  }

  /** A bound on the steps that a task and those it starts can take. */
  function TaskRank(task: Task, a: nat): nat {
    match task
    case Admitting(_, _) => ScopeRank(a) + 16
    case Dispatched(_) => ScopeRank(a) + 15
    case Mismatched(_) => 1
    case Refreshing(_, _, phase) => PhaseRank(phase, a)
    case Committing(scopes, pc, _, _) => CommitRank(scopes, pc, a)
    case Done => 0
  }

  function SpawnRank(spawn: Spawn, a: nat): nat { if spawn.NewTask? then TaskRank(spawn.task, a) else 0 }

  // ---- each step takes one ----------------------------------------------------------------------------

  function LeadsTo(routes: set<Route>, active: map<Route, StateId>): set<Lead>
    requires routes <= active.Keys
  {
    set r | r in routes :: Lead(r, active[r])
  }

  /** There are no more leads than active routes. */
  lemma {:induction false} LeadsOfRoutes(routes: set<Route>, active: map<Route, StateId>)
    requires routes <= active.Keys
    ensures |LeadsTo(routes, active)| <= |routes|
    decreases |routes|
  {
    if routes == {} {
      assert LeadsTo(routes, active) == {};
    } else {
      var c :| c in routes;
      var rest := routes - {c};
      LeadsOfRoutes(rest, active);
      assert LeadsTo(routes, active) == LeadsTo(rest, active) + {Lead(c, active[c])};
    }
  }

  lemma {:induction false} SmallerSet<T>(x: set<T>, y: set<T>)
    requires x <= y
    ensures |x| <= |y|
  {
    if x != {} {
      var c :| c in x;
      SmallerSet(x - {c}, y - {c});
    }
  }

  lemma ShardIsSmall(hash: Route -> nat, s: State, namespace: string, shard: nat)
    ensures |ShardLeads(hash, s, namespace, shard)| <= |s.active|
  {
    var routes := set r | r in s.active && r.namespace == namespace && Shard(hash, r) == shard;
    assert ShardLeads(hash, s, namespace, shard) == LeadsTo(routes, s.active);
    LeadsOfRoutes(routes, s.active);
    SmallerSet(routes, s.active.Keys);
  }

  lemma UnionIsSmall<T>(x: set<T>, y: set<T>)
    ensures |x + y| <= |x| + |y|
  {
    assert x + y == x + (y - x);
    SmallerSet(y - x, y);
  }

  lemma ScanLowers(shard: nat, affected: set<Lead>, more: set<Lead>, a: nat)
    requires shard < MUTATION_SHARD_COUNT && |more| <= a
    ensures PcRank(Scanning(shard + 1, affected + more), a) < PcRank(Scanning(shard, affected), a)
  {
    UnionIsSmall(affected, more);
    var n, b := MUTATION_SHARD_COUNT - shard, 5 * a + 1;
    assert n * b == (n - 1) * b + b;
  }

  lemma ScanningLowers(hash: Route -> nat, s: State, namespace: string, shard: nat, affected: set<Lead>)
    requires shard < MUTATION_SHARD_COUNT
    ensures PcRank(Scanning(shard + 1, affected + ShardLeads(hash, s, namespace, shard)), |s.active|)
            < PcRank(Scanning(shard, affected), |s.active|)
  {
    ShardIsSmall(hash, s, namespace, shard);
    ScanLowers(shard, affected, ShardLeads(hash, s, namespace, shard), |s.active|);
  }

  lemma ScanMoveLowers(hash: Route -> nat, s: State, t: TaskId, c: Task, choice: Choice)
    requires c.Committing? && c.scopes != [] && c.pc.Scanning? && RecordMove(hash, s, t, c, choice).Some?
    ensures var next := RecordMove(hash, s, t, c, choice).value.next;
            && next.Committing? && next.scopes == c.scopes && !next.pc.Next?
            && PcRank(next.pc, |s.active|) < PcRank(c.pc, |s.active|)
  {
    if c.pc.shard < MUTATION_SHARD_COUNT {
      ScanningLowers(hash, s, c.scopes[0].namespace, c.pc.shard, c.pc.affected);
    }
  }

  /** Recording one scope goes down. */
  lemma RecordingLowers(hash: Route -> nat, s: State, t: TaskId, c: Task, choice: Choice)
    requires c.Committing? && c.scopes != [] && !c.pc.Next? && RecordMove(hash, s, t, c, choice).Some?
    requires c.pc != Draining({})
    ensures var next := RecordMove(hash, s, t, c, choice).value.next;
            && next.Committing? && next.scopes == c.scopes && !next.pc.Next?
            && PcRank(next.pc, |s.active|) < PcRank(c.pc, |s.active|)
  {
    if c.pc.Scanning? {
      ScanMoveLowers(hash, s, t, c, choice);
    } else if c.pc.Draining? {
      assert |c.pc.affected - {choice.lead}| == |c.pc.affected| - 1;
    }
  }

  lemma StartLowers(scope: Scope, route: Route, id: StateId, a: nat)
    ensures PcRank(Scanning(0, {}), a) < ScopeRank(a)
    ensures PcRank(Draining({Lead(route, id)}), a) < ScopeRank(a) && PcRank(Draining({}), a) < ScopeRank(a)
  {
  }

  lemma RecordLowers(hash: Route -> nat, s: State, t: TaskId, c: Task, choice: Choice)
    requires c.Committing? && (c.scopes == [] ==> c.pc.Next?) && RecordMove(hash, s, t, c, choice).Some?
    ensures var m := RecordMove(hash, s, t, c, choice).value;
            m.spawn.NoTask? && TaskRank(m.next, |s.active|) < TaskRank(c, |s.active|)
  {
    if c.scopes != [] {
      if c.pc.Next? {
        var scope := c.scopes[0];
        if scope.One? && scope.route in s.active {
          StartLowers(scope, scope.route, s.active[scope.route], |s.active|);
        }
      } else if c.pc != Draining({}) {
        RecordingLowers(hash, s, t, c, choice);
      }
    }
  }

  lemma AdvanceLowers(s: State, t: TaskId, f: RefreshId, d: Dispatch, phase: Phase, choice: Choice)
    requires AdvanceMove(s, t, f, d, phase, choice).Some?
    ensures var m := AdvanceMove(s, t, f, d, phase, choice).value;
            TaskRank(m.next, |s.active|) + SpawnRank(m.spawn, |s.active|) < PhaseRank(phase, |s.active|)
  {
    if phase.Querying? { AnswerLowers(s, t, f, d, choice); }
  }

  /** Waiting for the provider ranks above the commit of its value. */
  lemma AnswerLowers(s: State, t: TaskId, f: RefreshId, d: Dispatch, choice: Choice)
    requires AdvanceMove(s, t, f, d, Querying, choice).Some?
    ensures var m := AdvanceMove(s, t, f, d, Querying, choice).value;
            TaskRank(m.next, |s.active|) + SpawnRank(m.spawn, |s.active|) < PhaseRank(Querying, |s.active|)
  {
    assert ScopesRank(1, |s.active|) == ScopesRank(0, |s.active|) + ScopeRank(|s.active|);
  }

  /** The step of a started task takes at least one from what it can do, with what it starts. */
  lemma MoveLowers(hash: Route -> nat, s: State, step: Step)
    requires Shape(s) && CanMove(hash, s, step)
    ensures var m := Plan(hash, s, step).value;
            && m.task == step.task && !m.effect.Create?
            && TaskRank(m.next, |s.active|) + SpawnRank(m.spawn, |s.active|) < TaskRank(s.tasks[step.task], |s.active|)
  {
    var task := s.tasks[step.task];
    assert TaskOk(s.states, s.admitted, task);
    OwnMove(hash, s, step);
    match step
    case Advance(t, choice) => AdvanceLowers(s, t, task.refresh, task.dispatch, task.phase, choice);
    case Record(t, choice) => RecordLowers(hash, s, t, task, choice);
    case _ => GetLowers(hash, s, step);
  }

  lemma OwnMove(hash: Route -> nat, s: State, step: Step)
    requires CanMove(hash, s, step)
    ensures Plan(hash, s, step).value.task == step.task && !Plan(hash, s, step).value.effect.Create?
  {
  }

  lemma GetLowers(hash: Route -> nat, s: State, step: Step)
    requires CanMove(hash, s, step) && !step.Advance? && !step.Record?
    ensures var m := Plan(hash, s, step).value;
            TaskRank(m.next, |s.active|) + SpawnRank(m.spawn, |s.active|) < TaskRank(s.tasks[step.task], |s.active|)
  {
  }

  // ---- all tasks together -----------------------------------------------------------------------------

  function Ranks(tasks: map<TaskId, Task>, a: nat): map<nat, nat> { map t | t in tasks :: TaskRank(tasks[t], a) }

  ghost function Rank(s: State): nat { Sum(Ranks(s.tasks, |s.active|)) }

  lemma {:induction false} ScopesGrow(n: nat, a: nat, b: nat)
    requires a <= b
    ensures ScopesRank(n, a) <= ScopesRank(n, b)
  {
    if n > 0 { ScopesGrow(n - 1, a, b); }
  }

  lemma PcGrows(pc: CommitPc, a: nat, b: nat)
    requires a <= b
    ensures PcRank(pc, a) <= PcRank(pc, b)
  {
    if pc.Scanning? && pc.shard < MUTATION_SHARD_COUNT {
      var n := MUTATION_SHARD_COUNT - pc.shard;
      assert n * (5 * b + 1) - n * (5 * a + 1) == n * (5 * (b - a));
      assert n * (5 * (b - a)) >= 0;
    }
  }

  lemma TaskGrows(task: Task, a: nat, b: nat)
    requires a <= b
    ensures TaskRank(task, a) <= TaskRank(task, b)
  {
    if task.Committing? {
      ScopesGrow(|task.scopes|, a, b);
      if task.scopes != [] { ScopesGrow(|task.scopes| - 1, a, b); }
      PcGrows(task.pc, a, b);
    }
  }

  /** Only an arrival makes routes active. */
  lemma ActiveShrinks(s: State, e: Effect)
    requires !e.Create?
    ensures |Do(s, e).active| <= |s.active|
  {
    SmallerSet(Do(s, e).active.Keys, s.active.Keys);
    assert |Do(s, e).active| == |Do(s, e).active.Keys| && |s.active| == |s.active.Keys|;
  }

  lemma RanksPut(tasks: map<TaskId, Task>, t: TaskId, task: Task, a: nat)
    ensures Ranks(tasks[t := task], a) == Ranks(tasks, a)[t := TaskRank(task, a)]
  {
  }

  lemma RanksAfter(s: State, m: Move, a: nat)
    requires m.task in s.tasks && (m.spawn.NewTask? ==> m.spawn.id !in s.tasks)
    ensures Sum(Ranks(Apply(s, m).tasks, a)) + TaskRank(s.tasks[m.task], a)
            == Sum(Ranks(s.tasks, a)) + TaskRank(m.next, a) + SpawnRank(m.spawn, a)
  {
    var moved := s.tasks[m.task := m.next];
    RanksPut(s.tasks, m.task, m.next, a);
    SumChange(Ranks(s.tasks, a), m.task, TaskRank(m.next, a));
    if m.spawn.NewTask? {
      RanksPut(moved, m.spawn.id, m.spawn.task, a);
      SumGrows(Ranks(moved, a), m.spawn.id, TaskRank(m.spawn.task, a));
    }
  }

  lemma StepLowers(hash: Route -> nat, s: State, step: Step)
    requires Inv(s) && CanMove(hash, s, step)
    ensures Rank(Apply(s, Plan(hash, s, step).value)) < Rank(s)
  {
    var m := Plan(hash, s, step).value;
    var s' := Apply(s, m);
    MoveLowers(hash, s, step);
    MoveIsTerminal(hash, s, step);
    PlanFlight(hash, s, step);
    RanksAfter(s, m, |s.active|);
    ActiveShrinks(s, m.effect);
    forall t | t in s'.tasks ensures TaskRank(s'.tasks[t], |s'.active|) <= TaskRank(s'.tasks[t], |s.active|) {
      TaskGrows(s'.tasks[t], |s'.active|, |s.active|);
    }
    SumAtMost(Ranks(s'.tasks, |s'.active|), Ranks(s'.tasks, |s.active|));
  }

  // ---- every run ends, with everything completed --------------------------------------------------------

  /** A run in which nothing new arrives. */
  ghost predicate StartedOnly(hash: Route -> nat, s: State, steps: seq<Step>)
    decreases |steps|
  {
    steps == [] ||
    (CanMove(hash, s, steps[0]) && StartedOnly(hash, Apply(s, Plan(hash, s, steps[0]).value), steps[1..]))
  }

  /** From every reachable state, a run without arrivals is no longer than the state's rank. */
  lemma {:induction false} RunsEnd(hash: Route -> nat, s: State, steps: seq<Step>)
    requires Inv(s) && StartedOnly(hash, s, steps) && Run(hash, s, steps).Some?
    ensures |steps| + Rank(Run(hash, s, steps).value) <= Rank(s)
    decreases |steps|
  {
    if steps != [] {
      StepLowers(hash, s, steps[0]);
      InvStep(hash, s, steps[0]);
      RunsEnd(hash, Apply(s, Plan(hash, s, steps[0]).value), steps[1..]);
    }
  }

  lemma {:induction false} RunJoin(hash: Route -> nat, s: State, past: seq<Step>, steps: seq<Step>)
    requires Run(hash, s, past).Some?
    ensures Run(hash, s, past + steps) == Run(hash, Run(hash, s, past).value, steps)
    decreases |past|
  {
    if past == [] {
      assert past + steps == steps;
    } else {
      RunJoin(hash, Apply(s, Plan(hash, s, past[0]).value), past[1..], steps);
      assert (past + steps)[1..] == past[1..] + steps;
    }
  }

  /** Once nothing new arrives, every run takes boundedly many steps, and when no step is left every
      refresh has sent its one terminal completion and no table holds anything. */
  lemma EveryRefreshCompletes(hash: Route -> nat, past: seq<Step>, s: State, steps: seq<Step>, t: State)
    requires Run(hash, INITIAL, past) == Some(s) && StartedOnly(hash, s, steps) && Run(hash, s, steps) == Some(t)
    ensures |steps| <= Rank(s)
    ensures (forall step :: !CanMove(hash, t, step)) ==>
              && (forall u | u in t.tasks :: t.tasks[u].Done?)
              && (forall f | f in t.refreshes :: t.refreshes[f].sends == 1 && !t.refreshes[f].completion.Pending?)
              && t.active == map[] && t.inflight == map[]
  {
    InitialInv(hash);
    InvRun(hash, INITIAL, past);
    RunsEnd(hash, s, steps);
    if forall step :: !CanMove(hash, t, step) {
      RunJoin(hash, INITIAL, past, steps);
      AllDone(hash, past + steps, t);
    }
  }

  lemma AllDone(hash: Route -> nat, steps: seq<Step>, t: State)
    requires Run(hash, INITIAL, steps) == Some(t) && forall step :: !CanMove(hash, t, step)
    ensures forall u | u in t.tasks :: t.tasks[u].Done?
    ensures forall f | f in t.refreshes :: t.refreshes[f].sends == 1 && !t.refreshes[f].completion.Pending?
    ensures t.active == map[] && t.inflight == map[]
  {
    forall u | u in t.tasks ensures t.tasks[u].Done? {
      if !t.tasks[u].Done? { NoDeadlock(hash, steps, t, u); }
    }
    InitialInv(hash);
    InvRun(hash, INITIAL, steps);
    forall f | f in t.refreshes ensures t.refreshes[f].sends == 1 && !t.refreshes[f].completion.Pending? {
      assert Owned(t.tasks, f, t.refreshes[f]);
    }
    QuiescentBrokerHoldsNoRoutes(hash, steps, t);
  }
}

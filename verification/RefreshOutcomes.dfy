/** What a refresh publishes, and when it inserts a miss marker, by the answers it was given. */
module RefreshOutcomes {
  import opened Wrappers
  import opened Routes
  import opened RefreshProtocol
  import opened RefreshInvariants
  import opened RefreshFlight
  import opened RefreshTheorems

  // ---- what a step tells and what a refresh is going to publish ------------------------------------

  /** The completion that a step decides. */
  function Told(step: Step): Option<Completion> {
    if !step.Advance? then None
    else
      match step.choice
      case Limited(n) => Some(RateLimited(n))
      case Answered(Accepted(_)) => Some(Value)
      case Answered(Lost) => Some(Failed)
      case Answered(_) => Some(Miss)
      case _ => None
  }

  /** The completion that a refresh has published, or that its task is bound to publish. */
  function Bound(task: Task, completion: Completion): Option<Completion> {
    if !completion.Pending? then Some(completion)
    else if !task.Refreshing? then None
    else
      match task.phase
      case RateCheck => None
      case Querying => None
      case Accepting(_) => Some(Value)
      case Releasing(outcome) => Some(outcome)
      case Publishing(outcome) => Some(outcome)
      case Removing => None
      case _ => Some(Miss)
  }

  /** The steps of a task decide this completion and no other. */
  ghost predicate Decided(past: seq<Step>, u: TaskId, verdict: Option<Completion>) {
    && (forall step | step in past && step.task == u && Told(step).Some? :: Told(step) == verdict)
    && (verdict.Some? ==> exists step :: step in past && step.task == u && Told(step) == verdict)
  }

  ghost predicate OutcomesOk(past: seq<Step>, s: State) {
    && (forall step | step in past :: step.task in s.tasks)
    && (forall f | f in s.refreshes ::
          && s.refreshes[f].owner in s.tasks
          && Decided(past, s.refreshes[f].owner, Bound(s.tasks[s.refreshes[f].owner], s.refreshes[f].completion)))
  }

  /** One step of the task that runs a refresh. */
  lemma OwnStep(s: State, t: TaskId, f: RefreshId, d: Dispatch, phase: Phase, choice: Choice)
    requires Offered(phase, choice) && AdvanceMove(s, t, f, d, phase, choice).Some? && f in s.refreshes
    requires phase.Removing? <==> !s.refreshes[f].completion.Pending?
    requires phase.Publishing? ==> !phase.outcome.Pending?
    ensures f in Do(s, AdvanceMove(s, t, f, d, phase, choice).value.effect).refreshes
    ensures var m := AdvanceMove(s, t, f, d, phase, choice).value;
            var was, told := Bound(Refreshing(f, d, phase), s.refreshes[f].completion), Told(Advance(t, choice));
            && Bound(m.next, Do(s, m.effect).refreshes[f].completion) == (if told.Some? then told else was)
            && (told.Some? ==> was.None?)
  {
  }

  lemma DecidedMore(past: seq<Step>, step: Step, u: TaskId, was: Option<Completion>, now: Option<Completion>)
    requires Decided(past, u, was)
    requires if step.task == u && Told(step).Some? then was.None? && now == Told(step) else now == was
    ensures Decided(past + [step], u, now)
  {
    var steps := past + [step];
    if now.Some? {
      if step.task == u && Told(step).Some? {
        assert step in steps;
      } else {
        var earlier :| earlier in past && earlier.task == u && Told(earlier) == was;
        assert earlier in steps;
      }
    }
  }

  /** The steps of other tasks leave a refresh as it is. */
  lemma OtherStep(s: State, m: Move, f: RefreshId)
    requires FlightOk(s) && FlightFacts(s, m) && f in s.refreshes && s.refreshes[f].owner != m.task
    ensures f in Do(s, m.effect).refreshes && Do(s, m.effect).refreshes[f] == s.refreshes[f]
  {
    if m.effect.Publish? { assert Runs(s.inflight, s.refreshes, m.task, s.tasks[m.task]); }
  }

  /** Owners do not change, and a refresh that was not there has just been opened. */
  lemma RefreshesAfter(s: State, m: Move, f: RefreshId)
    requires (m.effect.Open? ==> m.effect.refreshId !in s.refreshes) && f in Do(s, m.effect).refreshes
    ensures f in s.refreshes ==> Do(s, m.effect).refreshes[f].owner == s.refreshes[f].owner
    ensures f !in s.refreshes ==>
              m.effect.Open? && f == m.effect.refreshId && Do(s, m.effect).refreshes[f] == m.effect.refresh
  {
    if !m.effect.Open? && !m.effect.Publish? { RefreshesFrame(s, m.effect); }
  }

  lemma RefreshesFrame(s: State, e: Effect)
    requires !e.Open? && !e.Publish?
    ensures Do(s, e).refreshes == s.refreshes
  {
  }

  lemma MovesItself(hash: Route -> nat, s: State, step: Step)
    requires Plan(hash, s, step).Some?
    ensures Plan(hash, s, step).value.task == step.task
  {
  }

  /** The owner of a refresh moves only by running it. */
  lemma OwnerAdvances(hash: Route -> nat, s: State, step: Step, f: RefreshId)
    requires Shape(s) && FlightOk(s) && Plan(hash, s, step).Some? && f in s.refreshes
    requires step.task == s.refreshes[f].owner
    ensures step.Advance? && step.task in s.tasks
    ensures var task := s.tasks[step.task];
            && task.Refreshing? && task.refresh == f && Offered(task.phase, step.choice)
            && AdvanceMove(s, step.task, f, task.dispatch, task.phase, step.choice) == Plan(hash, s, step)
            && (task.phase.Removing? <==> !s.refreshes[f].completion.Pending?)
            && (task.phase.Publishing? ==> !task.phase.outcome.Pending?)
  {
    var u := step.task;
    assert Owned(s.tasks, f, s.refreshes[f]);
    MoveIsTerminal(hash, s, step);
    assert Runs(s.inflight, s.refreshes, u, s.tasks[u]) && TaskOk(s.states, s.admitted, s.tasks[u]);
    RefreshingAdvances(hash, s, step);
  }

  lemma RefreshingAdvances(hash: Route -> nat, s: State, step: Step)
    requires Plan(hash, s, step).Some? && step.task in s.tasks && s.tasks[step.task].Refreshing?
    ensures step.Advance? && Offered(s.tasks[step.task].phase, step.choice)
    ensures var task := s.tasks[step.task];
            AdvanceMove(s, step.task, task.refresh, task.dispatch, task.phase, step.choice) == Plan(hash, s, step)
  {
  }

  lemma OwnerDecided(past: seq<Step>, s: State, step: Step, m: Move, f: RefreshId)
    requires step.Advance? && step.task in s.tasks && s.tasks[step.task].Refreshing? && f in s.refreshes
    requires var task := s.tasks[step.task];
             && Offered(task.phase, step.choice)
             && AdvanceMove(s, step.task, f, task.dispatch, task.phase, step.choice) == Some(m) && task.refresh == f
             && (task.phase.Removing? <==> !s.refreshes[f].completion.Pending?)
             && (task.phase.Publishing? ==> !task.phase.outcome.Pending?)
    requires Decided(past, step.task, Bound(s.tasks[step.task], s.refreshes[f].completion))
    ensures f in Do(s, m.effect).refreshes
    ensures Decided(past + [step], step.task, Bound(m.next, Do(s, m.effect).refreshes[f].completion))
  {
    var u := step.task;
    OwnStep(s, u, f, s.tasks[u].dispatch, s.tasks[u].phase, step.choice);
    assert s.tasks[u] == Refreshing(f, s.tasks[u].dispatch, s.tasks[u].phase) && step == Advance(u, step.choice);
    DecidedMore(past, step, u, Bound(s.tasks[u], s.refreshes[f].completion),
                Bound(m.next, Do(s, m.effect).refreshes[f].completion));
  }

  /** Nobody has told anything to a refresh that has just been opened. */
  lemma OpenedIsUndecided(past: seq<Step>, s: State, step: Step, m: Move)
    requires OutcomesOk(past, s) && FlightFacts(s, m) && m.effect.Open? && m.task == step.task
    ensures m.effect.refresh.owner == m.spawn.id
    ensures Decided(past + [step], m.spawn.id, Bound(m.spawn.task, m.effect.refresh.completion))
  {
    assert m.spawn.id !in s.tasks && m.spawn.id != step.task;
  }

  lemma RefreshOutcome(hash: Route -> nat, past: seq<Step>, s: State, step: Step, f: RefreshId)
    requires Shape(s) && FlightOk(s) && OutcomesOk(past, s) && Plan(hash, s, step).Some?
    requires f in Apply(s, Plan(hash, s, step).value).refreshes
    ensures var s' := Apply(s, Plan(hash, s, step).value);
            var u := s'.refreshes[f].owner;
            u in s'.tasks && Decided(past + [step], u, Bound(s'.tasks[u], s'.refreshes[f].completion))
  {
    var m := Plan(hash, s, step).value;
    MoveIsTerminal(hash, s, step);
    PlanFlight(hash, s, step);
    MovesItself(hash, s, step);
    ApplyTasks(s, m);
    RefreshesAfter(s, m, f);
    if f !in s.refreshes {
      OpenedIsUndecided(past, s, step, m);
    } else if s.refreshes[f].owner == step.task {
      OwnerAdvances(hash, s, step, f);
      OwnerDecided(past, s, step, m, f);
    } else {
      OtherStep(s, m, f);
      var u := s.refreshes[f].owner;
      var was := Bound(s.tasks[u], s.refreshes[f].completion);
      DecidedMore(past, step, u, was, was);
    }
  }

  lemma OutcomesStep(hash: Route -> nat, past: seq<Step>, s: State, step: Step)
    requires Shape(s) && FlightOk(s) && OutcomesOk(past, s) && Plan(hash, s, step).Some?
    ensures OutcomesOk(past + [step], Apply(s, Plan(hash, s, step).value))
  {
    var m := Plan(hash, s, step).value;
    var s' := Apply(s, m);
    MoveIsTerminal(hash, s, step);
    PlanFlight(hash, s, step);
    MovesItself(hash, s, step);
    ApplyTasks(s, m);
    forall f | f in s'.refreshes
      ensures s'.refreshes[f].owner in s'.tasks
      ensures Decided(past + [step], s'.refreshes[f].owner,
                      Bound(s'.tasks[s'.refreshes[f].owner], s'.refreshes[f].completion))
    {
      RefreshOutcome(hash, past, s, step, f);
    }
  }

  // ---- miss markers ----------------------------------------------------------------------------------

  /** The points of a refresh that has been told of a miss to confirm. */
  predicate Confirms(phase: Phase) {
    || phase.Looking? || phase.Checking? || phase.Reading? || phase.Gating? || phase.Rechecking? || phase.Inserting?
    || phase.Dropping? || phase.Unlocking?
  }

  /** The points at which a refresh has no marker left to insert. */
  predicate PastInserting(task: Task) {
    task.Done? || (task.Refreshing? && (task.phase.Releasing? || task.phase.Publishing? || task.phase.Removing?))
  }

  ghost predicate ReadsOk(past: seq<Step>, s: State) {
    && (forall step | step in past :: step.task in s.tasks)
    && (forall u | u in s.tasks && s.tasks[u].Refreshing? && Confirms(s.tasks[u].phase) ::
          Advance(u, Answered(Confirmed)) in past)
    && (forall u | u in s.tasks && Advance(u, Present) in past :: PastInserting(s.tasks[u]))
  }

  ghost predicate ReadFacts(s: State, step: Step, m: Move) {
    && m.task == step.task
    && (m.spawn.NewTask? ==>
          && m.spawn.id !in s.tasks && m.spawn.id != m.task
          && (m.spawn.task.Refreshing? ==> !Confirms(m.spawn.task.phase)))
    && (m.next.Refreshing? && Confirms(m.next.phase) ==>
          || step == Advance(step.task, Answered(Confirmed))
          || (m.task in s.tasks && s.tasks[m.task].Refreshing? && Confirms(s.tasks[m.task].phase)))
    && (step == Advance(step.task, Present) || (m.task in s.tasks && PastInserting(s.tasks[m.task])) ==>
          PastInserting(m.next))
  }

  lemma PlanReads(hash: Route -> nat, s: State, step: Step)
    requires Plan(hash, s, step).Some?
    ensures ReadFacts(s, step, Plan(hash, s, step).value)
  {
    if step.Advance? { AdvanceReads(s, step.task, step.choice); }
  }

  lemma AdvanceReads(s: State, t: TaskId, choice: Choice)
    requires t in s.tasks && s.tasks[t].Refreshing? && Offered(s.tasks[t].phase, choice)
    requires var task := s.tasks[t]; AdvanceMove(s, t, task.refresh, task.dispatch, task.phase, choice).Some?
    ensures var task := s.tasks[t];
            ReadFacts(s, Advance(t, choice), AdvanceMove(s, t, task.refresh, task.dispatch, task.phase, choice).value)
  {
  }

  lemma ReadsStep(past: seq<Step>, s: State, step: Step, m: Move)
    requires ReadsOk(past, s) && ReadFacts(s, step, m)
    ensures ReadsOk(past + [step], Apply(s, m))
  {
    var s', steps := Apply(s, m), past + [step];
    ApplyTasks(s, m);
    forall u | u in s'.tasks && s'.tasks[u].Refreshing? && Confirms(s'.tasks[u].phase)
      ensures Advance(u, Answered(Confirmed)) in steps
    {
      assert u != m.task ==> u in s.tasks && s'.tasks[u] == s.tasks[u];
    }
    forall u | u in s'.tasks && Advance(u, Present) in steps
      ensures PastInserting(s'.tasks[u])
    {
      if u != m.task {
        assert Advance(u, Present) in past;
        assert Advance(u, Present).task in s.tasks;
      }
    }
  }

  // ---- accepted values ---------------------------------------------------------------------------------

  /** A mutation of this one route has been recorded. */
  ghost predicate WasRecorded(recorded: set<Recorded>, route: Route) {
    exists record :: record in recorded && record.scope == One(route)
  }

  /** The commit of an accepted value: it is going to record the route, or has done so. */
  ghost predicate Settling(task: Task, recorded: set<Recorded>, route: Route) {
    match task
    case Committing(scopes, _, _, _) => scopes == [One(route)] || (scopes == [] && WasRecorded(recorded, route))
    case Done => WasRecorded(recorded, route)
    case _ => false
  }

  ghost predicate ValueOk(tasks: map<TaskId, Task>, recorded: set<Recorded>, task: Task) {
    task.Refreshing? ==>
      && (task.phase.Accepting? ==>
            task.phase.child in tasks && Settling(tasks[task.phase.child], recorded, task.dispatch.route))
      && (task.phase == Releasing(Value) || task.phase == Publishing(Value) ==>
            WasRecorded(recorded, task.dispatch.route))
  }

  ghost predicate ValuesOk(s: State) {
    && (forall u | u in s.tasks :: ValueOk(s.tasks, s.recorded, s.tasks[u]))
    && (forall f | f in s.refreshes && s.refreshes[f].completion == Value ::
          WasRecorded(s.recorded, s.refreshes[f].route))
  }

  lemma RecordedGrows(s: State, e: Effect)
    ensures s.recorded <= Do(s, e).recorded
  {
  }

  lemma SettlingGrows(task: Task, recorded: set<Recorded>, recorded': set<Recorded>, route: Route)
    requires recorded <= recorded' && Settling(task, recorded, route)
    ensures Settling(task, recorded', route)
  {
  }

  /** A commit goes on recording its route. */
  lemma SettlingStep(hash: Route -> nat, s: State, t: TaskId, c: Task, choice: Choice, route: Route)
    requires c.Committing? && Settling(c, s.recorded, route) && RecordMove(hash, s, t, c, choice).Some?
    ensures var m := RecordMove(hash, s, t, c, choice).value;
            Settling(m.next, Do(s, m.effect).recorded, route)
  {
    var m := RecordMove(hash, s, t, c, choice).value;
    RecordedGrows(s, m.effect);
    if c.scopes != [] && m.effect.Settle? {
      assert m.effect.record in Do(s, m.effect).recorded && m.effect.record.scope == One(route);
      assert c.scopes[1..] == [];
    }
  }

  /** What a move of a settling task leaves of it. */
  lemma ChildStep(hash: Route -> nat, s: State, step: Step, child: TaskId, route: Route)
    requires Plan(hash, s, step).Some? && child in s.tasks && Settling(s.tasks[child], s.recorded, route)
    requires step.task in s.tasks ==> !s.tasks[step.task].Done?
    requires FlightFacts(s, Plan(hash, s, step).value) && Plan(hash, s, step).value.task == step.task
    ensures var s' := Apply(s, Plan(hash, s, step).value);
            child in s'.tasks && Settling(s'.tasks[child], s'.recorded, route)
  {
    var m := Plan(hash, s, step).value;
    ApplyTasks(s, m);
    RecordedGrows(s, m.effect);
    if child == step.task {
      CommittingRecords(hash, s, step);
      SettlingStep(hash, s, child, s.tasks[child], step.choice, route);
    } else {
      SettlingGrows(s.tasks[child], s.recorded, Do(s, m.effect).recorded, route);
    }
  }

  lemma CommittingRecords(hash: Route -> nat, s: State, step: Step)
    requires Plan(hash, s, step).Some? && step.task in s.tasks && s.tasks[step.task].Committing?
    ensures step.Record? && Plan(hash, s, step) == RecordMove(hash, s, step.task, s.tasks[step.task], step.choice)
  {
  }

  /** A refresh starts the commit of a value it accepts, and reports the value when that is done. */
  lemma AcceptingStep(s: State, t: TaskId, f: RefreshId, d: Dispatch, phase: Phase, choice: Choice)
    requires t in s.tasks && s.tasks[t] == Refreshing(f, d, phase) && Offered(phase, choice)
    requires AdvanceMove(s, t, f, d, phase, choice).Some? && ValueOk(s.tasks, s.recorded, s.tasks[t])
    ensures var m := AdvanceMove(s, t, f, d, phase, choice).value;
            && Do(s, m.effect).recorded == s.recorded
            && (m.next.Refreshing? && m.next.phase.Accepting? ==>
                  && m.spawn.NewTask? && m.spawn.id == m.next.phase.child
                  && Settling(m.spawn.task, s.recorded, d.route))
            && (m.next.Refreshing? && (m.next.phase == Releasing(Value) || m.next.phase == Publishing(Value)) ==>
                  m.next.dispatch == d && WasRecorded(s.recorded, d.route))
  {
  }

  lemma OtherValue(hash: Route -> nat, s: State, step: Step, u: TaskId)
    requires Plan(hash, s, step).Some? && u in s.tasks && u != step.task && ValueOk(s.tasks, s.recorded, s.tasks[u])
    requires step.task in s.tasks ==> !s.tasks[step.task].Done?
    requires FlightFacts(s, Plan(hash, s, step).value) && Plan(hash, s, step).value.task == step.task
    ensures var s' := Apply(s, Plan(hash, s, step).value);
            ValueOk(s'.tasks, s'.recorded, s.tasks[u])
  {
    RecordedGrows(s, Plan(hash, s, step).value.effect);
    var task := s.tasks[u];
    if task.Refreshing? && task.phase.Accepting? { ChildStep(hash, s, step, task.phase.child, task.dispatch.route); }
  }

  lemma MovedValue(hash: Route -> nat, s: State, step: Step)
    requires Plan(hash, s, step).Some? && ValuesOk(s)
    requires step.task in s.tasks ==> !s.tasks[step.task].Done?
    requires FlightFacts(s, Plan(hash, s, step).value) && Plan(hash, s, step).value.task == step.task
    ensures var m := Plan(hash, s, step).value;
            ValueOk(Apply(s, m).tasks, Apply(s, m).recorded, m.next)
  {
    var m, t := Plan(hash, s, step).value, step.task;
    ApplyTasks(s, m);
    if m.next.Refreshing? {
      assert t in s.tasks && s.tasks[t].Refreshing? && SameRefresh(s.tasks[t], m.next);
      RefreshingAdvances(hash, s, step);
      AcceptingStep(s, t, s.tasks[t].refresh, s.tasks[t].dispatch, s.tasks[t].phase, step.choice);
    }
  }

  lemma PublishedValue(s: State, m: Move, f: RefreshId)
    requires ValuesOk(s) && FlightOk(s) && FlightFacts(s, m)
    requires f in Do(s, m.effect).refreshes && Do(s, m.effect).refreshes[f].completion == Value
    ensures WasRecorded(Do(s, m.effect).recorded, Do(s, m.effect).refreshes[f].route)
  {
    RecordedGrows(s, m.effect);
    if m.effect.Publish? {
      assert Runs(s.inflight, s.refreshes, m.task, s.tasks[m.task]);
      assert ValueOk(s.tasks, s.recorded, s.tasks[m.task]);
    } else {
      RefreshesAfter(s, m, f);
      if !m.effect.Open? { RefreshesFrame(s, m.effect); }
    }
  }

  lemma ValuesStep(hash: Route -> nat, s: State, step: Step)
    requires Inv(s) && ValuesOk(s) && Plan(hash, s, step).Some?
    ensures ValuesOk(Apply(s, Plan(hash, s, step).value))
  {
    var m := Plan(hash, s, step).value;
    var s' := Apply(s, m);
    MoveIsTerminal(hash, s, step);
    PlanFlight(hash, s, step);
    MovesItself(hash, s, step);
    ApplyTasks(s, m);
    MovedValue(hash, s, step);
    forall u | u in s'.tasks
      ensures ValueOk(s'.tasks, s'.recorded, s'.tasks[u])
    {
      if u in s.tasks && u != step.task { OtherValue(hash, s, step, u); }
    }
    forall f | f in s'.refreshes && s'.refreshes[f].completion == Value
      ensures WasRecorded(s'.recorded, s'.refreshes[f].route)
    {
      PublishedValue(s, m, f);
    }
  }

  // ---- what a commit leaves alone ----------------------------------------------------------------------

  /** The route state that a commit is working on is one that its scope covers. */
  predicate WorksInScope(task: Task) {
    task.Committing? && task.scopes != [] && (task.pc.Locking? || task.pc.Bumping? || task.pc.Invalidating?) ==>
      Covers(task.scopes[0], task.pc.lead.route)
  }

  ghost predicate ScopesOk(tasks: map<TaskId, Task>) { forall t | t in tasks :: WorksInScope(tasks[t]) }

  lemma ScopesStep(hash: Route -> nat, s: State, step: Step)
    requires ScopesOk(s.tasks) && Plan(hash, s, step).Some?
    ensures ScopesOk(Apply(s, Plan(hash, s, step).value).tasks)
  {
    PlanInScope(hash, s, step);
  }

  lemma PlanInScope(hash: Route -> nat, s: State, step: Step)
    requires Plan(hash, s, step).Some? && (step.task in s.tasks ==> WorksInScope(s.tasks[step.task]))
    ensures var m := Plan(hash, s, step).value;
            WorksInScope(m.next) && (m.spawn.NewTask? ==> WorksInScope(m.spawn.task))
  {
    if step.Record? { RecordInScope(hash, s, step.task, s.tasks[step.task], step.choice); }
  }

  lemma RecordInScope(hash: Route -> nat, s: State, t: TaskId, c: Task, choice: Choice)
    requires c.Committing? && WorksInScope(c) && RecordMove(hash, s, t, c, choice).Some?
    ensures var m := RecordMove(hash, s, t, c, choice).value; WorksInScope(m.next) && m.spawn.NoTask?
  {
  }

  /** A commit's effect that does not concern a route. */
  predicate Elsewhere(s: State, e: Effect, route: Route) {
    match e
    case Nothing => true
    case Gate(_, _) => true
    case Bump(id) => id in s.states && s.states[id].route != route
    case Unmark(r) => r != route
    case Settle(_, left) => MarkerAt(left, route) == MarkerAt(s.markers, route)
    case _ => false
  }

  function MarkerAt(markers: map<Route, Dispatch>, route: Route): Option<Dispatch> {
    if route in markers then Some(markers[route]) else None
  }

  lemma ElsewhereLeaves(s: State, e: Effect, route: Route)
    requires Elsewhere(s, e, route)
    ensures MarkerAt(Do(s, e).markers, route) == MarkerAt(s.markers, route)
    ensures forall id | id in s.states && s.states[id].route == route ::
              id in Do(s, e).states && Do(s, e).states[id].generation == s.states[id].generation
  {
  }

  lemma CommitIsElsewhere(hash: Route -> nat, s: State, t: TaskId, c: Task, choice: Choice, route: Route)
    requires c.Committing? && c.scopes != [] && WorksInScope(c) && TaskOk(s.states, s.admitted, c)
    requires RecordMove(hash, s, t, c, choice).Some? && !Covers(c.scopes[0], route)
    ensures Elsewhere(s, RecordMove(hash, s, t, c, choice).value.effect, route)
  {
    if c.pc.Bumping? || c.pc.Invalidating? {
      assert c.pc.lead in Leads(c.pc);
      assert Known(s.states, c.pc.lead.route, c.pc.lead.id);
    }
  }

  // ---- outdated confirmations --------------------------------------------------------------------------

  /** A refresh that has not passed its check of an outdated generation, or has given up on it. */
  ghost predicate Outrun(s: State, u: TaskId, task: Task)
    requires task.Refreshing?
  {
    && u in s.tasks
    && if s.tasks[u] == task then GenerationOf(s, task.dispatch.id) != Some(task.dispatch.generation)
       else PastInserting(s.tasks[u])
  }

  lemma OutrunStep(hash: Route -> nat, s: State, step: Step, u: TaskId, task: Task)
    requires Inv(s) && task.Refreshing? && task.phase.Checking? && Outrun(s, u, task) && Plan(hash, s, step).Some?
    ensures Outrun(Apply(s, Plan(hash, s, step).value), u, task)
  {
    var m := Plan(hash, s, step).value;
    PlanReads(hash, s, step);
    ApplyTasks(s, m);
    assert TaskOk(s.states, s.admitted, s.tasks[u]);
    if u == step.task {
      if s.tasks[u] == task { OutdatedMove(hash, s, step, task); }
    } else if s.tasks[u] == task {
      assert task.dispatch in s.admitted;
      PlanOk(hash, s, step);
      OutdatedStays(s, m.effect, task.dispatch);
    }
  }

  lemma OutdatedMove(hash: Route -> nat, s: State, step: Step, task: Task)
    requires Plan(hash, s, step).Some? && step.task in s.tasks && s.tasks[step.task] == task
    requires task.Refreshing? && task.phase.Checking?
    requires GenerationOf(s, task.dispatch.id) != Some(task.dispatch.generation)
    ensures PastInserting(Plan(hash, s, step).value.next) && Plan(hash, s, step).value.next != task
  {
  }

  lemma OutdatedStays(s: State, e: Effect, d: Dispatch)
    requires Shape(s) && Lawful(s, e) && d in s.admitted && GenerationOf(s, d.id) != Some(d.generation)
    ensures GenerationOf(Do(s, e), d.id) != Some(d.generation)
  {
    EffectGrows(s, e);
  }

  /** A confirmation that comes to its first check with an outdated generation goes no further: in every
      continuation it neither reads the store, nor takes the gate, nor inserts a marker. */
  lemma {:induction false} OutdatedCheckEnds(hash: Route -> nat, s: State, steps: seq<Step>, u: TaskId, task: Task)
    requires Inv(s) && task.Refreshing? && task.phase.Checking? && Outrun(s, u, task) && Run(hash, s, steps).Some?
    ensures var t := Run(hash, s, steps).value; u in t.tasks && (t.tasks[u] == task || PastInserting(t.tasks[u]))
    decreases |steps|
  {
    if steps != [] {
      OutrunStep(hash, s, steps[0], u, task);
      InvStep(hash, s, steps[0]);
      OutdatedCheckEnds(hash, Apply(s, Plan(hash, s, steps[0]).value), steps[1..], u, task);
    }
  }

  // ---- over runs ---------------------------------------------------------------------------------------

  ghost predicate HistoryOk(past: seq<Step>, s: State) {
    OutcomesOk(past, s) && ReadsOk(past, s) && ValuesOk(s) && ScopesOk(s.tasks)
  }

  lemma HistoryStep(hash: Route -> nat, past: seq<Step>, s: State, step: Step)
    requires Inv(s) && HistoryOk(past, s) && Plan(hash, s, step).Some?
    ensures HistoryOk(past + [step], Apply(s, Plan(hash, s, step).value))
  {
    OutcomesStep(hash, past, s, step);
    PlanReads(hash, s, step);
    ReadsStep(past, s, step, Plan(hash, s, step).value);
    ValuesStep(hash, s, step);
    ScopesStep(hash, s, step);
  }

  lemma {:induction false} HistoryRun(hash: Route -> nat, past: seq<Step>, s: State, steps: seq<Step>)
    requires Inv(s) && HistoryOk(past, s) && Run(hash, s, steps).Some?
    ensures HistoryOk(past + steps, Run(hash, s, steps).value)
    decreases |steps|
  {
    if steps == [] {
      assert past + steps == past;
    } else {
      var step := steps[0];
      assert past + steps == past + [step] + steps[1..];
      InvStep(hash, s, step);
      HistoryStep(hash, past, s, step);
      HistoryRun(hash, past + [step], Apply(s, Plan(hash, s, step).value), steps[1..]);
    }
  }

  lemma ReachableHistory(hash: Route -> nat, steps: seq<Step>, s: State)
    requires Run(hash, INITIAL, steps) == Some(s)
    ensures HistoryOk(steps, s)
  {
    InitialInv(hash);
    HistoryRun(hash, [], INITIAL, steps);
    assert [] + steps == steps;
  }

  /** In every run, a refresh publishes what its owner was told: a value exactly when the provider's
      value was accepted, a miss exactly when the provider had none, the limiter's own hint exactly
      when it was limited, and a failure exactly when it got no usable answer. */
  lemma PublishedIsTold(hash: Route -> nat, steps: seq<Step>, s: State, f: RefreshId)
    requires Run(hash, INITIAL, steps) == Some(s) && f in s.refreshes && !s.refreshes[f].completion.Pending?
    ensures var u, c := s.refreshes[f].owner, s.refreshes[f].completion;
            && (c == Value <==> exists child :: Advance(u, Answered(Accepted(child))) in steps)
            && (c == Miss <==> Advance(u, Answered(Confirmed)) in steps || Advance(u, Answered(Unconfirmed)) in steps)
            && (c == Failed <==> Advance(u, Answered(Lost)) in steps)
            && (forall n :: c == RateLimited(n) <==> Advance(u, Limited(n)) in steps)
  {
    ReachableHistory(hash, steps, s);
    var u, c := s.refreshes[f].owner, s.refreshes[f].completion;
    assert Decided(steps, u, Some(c));
    DecidedMeans(steps, u, c);
  }

  /** A refresh publishes a value only after the commit of it has recorded the mutation of its route. */
  lemma PublishedValueIsRecorded(hash: Route -> nat, steps: seq<Step>, s: State, f: RefreshId)
    requires Run(hash, INITIAL, steps) == Some(s) && f in s.refreshes && s.refreshes[f].completion == Value
    ensures exists record :: record in s.recorded && record.scope == One(s.refreshes[f].route)
  {
    ReachableHistory(hash, steps, s);
    assert WasRecorded(s.recorded, s.refreshes[f].route);
  }

  lemma DecidedMeans(steps: seq<Step>, u: TaskId, c: Completion)
    requires Decided(steps, u, Some(c))
    ensures c == Value <==> exists child :: Advance(u, Answered(Accepted(child))) in steps
    ensures c == Miss <==> Advance(u, Answered(Confirmed)) in steps || Advance(u, Answered(Unconfirmed)) in steps
    ensures c == Failed <==> Advance(u, Answered(Lost)) in steps
    ensures forall n :: c == RateLimited(n) <==> Advance(u, Limited(n)) in steps
  {
    var step :| step in steps && step.task == u && Told(step) == Some(c);
    assert step == Advance(u, step.choice);
    if step.choice.Answered? && step.choice.answer.Accepted? {
      assert step == Advance(u, Answered(Accepted(step.choice.answer.child)));
    }
    forall n ensures c == RateLimited(n) <==> Advance(u, Limited(n)) in steps {
      if Advance(u, Limited(n)) in steps { assert Told(Advance(u, Limited(n))) == Some(c); }
    }
  }

  /** A refresh inserts a miss marker only if the provider's miss was to be confirmed and its store
      read found no value. */
  lemma MarkerNeedsAbsence(hash: Route -> nat, steps: seq<Step>, s: State, step: Step)
    requires Run(hash, INITIAL, steps) == Some(s) && Plan(hash, s, step).Some?
    requires Plan(hash, s, step).value.effect.Mark?
    ensures step.Advance? && Advance(step.task, Answered(Confirmed)) in steps && Advance(step.task, Present) !in steps
  {
    ReachableHistory(hash, steps, s);
    MarkingIsInserting(hash, s, step);
    InsertingWasConfirmed(steps, s, step.task);
  }

  lemma InsertingWasConfirmed(past: seq<Step>, s: State, u: TaskId)
    requires ReadsOk(past, s) && u in s.tasks && s.tasks[u].Refreshing? && s.tasks[u].phase.Inserting?
    ensures Advance(u, Answered(Confirmed)) in past && Advance(u, Present) !in past
  {
  }

  lemma MarkingIsInserting(hash: Route -> nat, s: State, step: Step)
    requires Plan(hash, s, step).Some? && Plan(hash, s, step).value.effect.Mark?
    ensures step.Advance? && step.task in s.tasks
    ensures s.tasks[step.task].Refreshing? && s.tasks[step.task].phase.Inserting?
  {
  }

  /** In every run, recording a mutation leaves the markers and generations of all routes alone that its
      scope does not cover. */
  lemma RecordingKeepsUncovered(hash: Route -> nat, steps: seq<Step>, s: State, step: Step, route: Route)
    requires Run(hash, INITIAL, steps) == Some(s) && step.Record? && Plan(hash, s, step).Some?
    requires s.tasks[step.task].scopes != [] && !Covers(s.tasks[step.task].scopes[0], route)
    ensures var s' := Apply(s, Plan(hash, s, step).value);
            && MarkerAt(s'.markers, route) == MarkerAt(s.markers, route)
            && forall id | id in s.states && s.states[id].route == route ::
                 id in s'.states && s'.states[id].generation == s.states[id].generation
  {
    ReachableHistory(hash, steps, s);
    InitialInv(hash);
    InvRun(hash, INITIAL, steps);
    var t := step.task;
    assert TaskOk(s.states, s.admitted, s.tasks[t]) && WorksInScope(s.tasks[t]);
    CommitIsElsewhere(hash, s, t, s.tasks[t], step.choice, route);
    ElsewhereLeaves(s, Plan(hash, s, step).value.effect, route);
  }
}

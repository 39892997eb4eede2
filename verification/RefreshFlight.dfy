/** Single flight: one refresh per route, one completion per refresh, no leaked route
    state.  These hold in every run, quiet or not. */
module RefreshFlight {
  import opened Wrappers
  import opened Routes
  import opened RefreshProtocol
  import opened RefreshInvariants

  // ---- one task per in-flight refresh ---------------------------------------------------

  /** The task runs the refresh that is in flight for its route, and has sent a completion
      only once it is about to remove the entry. */
  ghost predicate Runs(inflight: map<Route, RefreshId>, refreshes: map<RefreshId, Refresh>, t: TaskId, task: Task) {
    task.Refreshing? ==>
      && task.refresh in refreshes
      && var f := refreshes[task.refresh];
         && f.owner == t
         && f.route == task.dispatch.route
         && f.brokerId == task.dispatch.id
         && f.route in inflight
         && inflight[f.route] == task.refresh
         && (if task.phase.Removing? then f.sends == 1 && !f.completion.Pending?
             else f.sends == 0 && f.completion.Pending?)
  }

  /** A refresh is either run by its owner or has ended with one terminal completion. */
  ghost predicate Owned(tasks: map<TaskId, Task>, id: RefreshId, f: Refresh) {
    && f.owner in tasks
    && (tasks[f.owner].Done? || (tasks[f.owner].Refreshing? && tasks[f.owner].refresh == id))
    && (tasks[f.owner].Done? ==> f.sends == 1 && !f.completion.Pending?)
  }

  ghost predicate FlightOk(s: State) {
    && (forall t | t in s.tasks :: Runs(s.inflight, s.refreshes, t, s.tasks[t]))
    && (forall f | f in s.refreshes :: Owned(s.tasks, f, s.refreshes[f]))
    && (forall r | r in s.inflight ::
          && s.inflight[r] in s.refreshes
          && s.refreshes[s.inflight[r]].route == r
          && !s.tasks[s.refreshes[s.inflight[r]].owner].Done?)
  }

  ghost predicate SameRefresh(task: Task, next: Task)
    requires task.Refreshing?
  {
    next.Refreshing? && next.refresh == task.refresh && next.dispatch == task.dispatch
  }

  /** How a move relates to refreshes: it opens one, publishes and removes its own, or
      leaves them alone. */
  ghost predicate FlightFacts(s: State, m: Move) {
    && (m.spawn.NewTask? ==> m.spawn.id !in s.tasks && m.spawn.id != m.task)
    && (m.task in s.tasks ==> !s.tasks[m.task].Done?)
    && match m.effect
       case Open(f, refresh) =>
         && f !in s.refreshes && refresh.route !in s.inflight
         && m.spawn.NewTask? && m.spawn.task.Refreshing?
         && m.spawn.task.refresh == f && m.spawn.task.phase.RateCheck?
         && refresh == Refresh(m.spawn.task.dispatch.route, m.spawn.task.dispatch.id, Pending, m.spawn.id, 0)
         && m.task in s.tasks && !s.tasks[m.task].Refreshing? && m.next.Done?
       case Publish(f, outcome) =>
         && m.spawn.NoTask?
         && m.task in s.tasks && s.tasks[m.task].Refreshing? && s.tasks[m.task].refresh == f
         && s.tasks[m.task].phase == Publishing(outcome)
         && SameRefresh(s.tasks[m.task], m.next) && m.next.phase.Removing?
       case Retire(r, f) =>
         && m.spawn.NoTask?
         && m.task in s.tasks && s.tasks[m.task].Refreshing? && s.tasks[m.task].refresh == f
         && s.tasks[m.task].dispatch.route == r
         && s.tasks[m.task].phase.Removing? && m.next.Done?
       case _ =>
         && (m.spawn.NewTask? ==> m.spawn.task.Committing?)
         && if m.task in s.tasks && s.tasks[m.task].Refreshing?
            then SameRefresh(s.tasks[m.task], m.next) && !m.next.phase.Removing? && !s.tasks[m.task].phase.Removing?
            else !m.next.Refreshing?
  }

  lemma PlanFlight(hash: Route -> nat, s: State, step: Step)
    requires Plan(hash, s, step).Some?
    requires step.task in s.tasks ==> !s.tasks[step.task].Done?
    ensures FlightFacts(s, Plan(hash, s, step).value)
  {
  }

  /** Two tasks never run the same refresh, nor refreshes of the same route. */
  lemma DistinctFlights(s: State, t: TaskId, u: TaskId)
    requires FlightOk(s) && t in s.tasks && u in s.tasks && t != u
    requires s.tasks[t].Refreshing? && s.tasks[u].Refreshing?
    ensures s.tasks[t].refresh != s.tasks[u].refresh
    ensures s.tasks[t].dispatch.route != s.tasks[u].dispatch.route
  {
    assert Runs(s.inflight, s.refreshes, t, s.tasks[t]) && Runs(s.inflight, s.refreshes, u, s.tasks[u]);
  }

  lemma OtherRuns(s: State, m: Move, t: TaskId)
    requires FlightOk(s) && FlightFacts(s, m) && t in s.tasks && t != m.task
    ensures Runs(Do(s, m.effect).inflight, Do(s, m.effect).refreshes, t, s.tasks[t])
  {
    assert Runs(s.inflight, s.refreshes, t, s.tasks[t]);
    if s.tasks[t].Refreshing? && (m.effect.Publish? || m.effect.Retire?) {
      DistinctFlights(s, t, m.task);
    }
  }

  lemma MovedRuns(s: State, m: Move)
    requires FlightOk(s) && FlightFacts(s, m)
    requires m.effect.Publish? ==> !m.effect.outcome.Pending?
    ensures Runs(Do(s, m.effect).inflight, Do(s, m.effect).refreshes, m.task, m.next)
    ensures m.spawn.NewTask? ==> Runs(Do(s, m.effect).inflight, Do(s, m.effect).refreshes, m.spawn.id, m.spawn.task)
  {
    if m.task in s.tasks { assert Runs(s.inflight, s.refreshes, m.task, s.tasks[m.task]); }
  }

  /** The task table after a move. */
  ghost predicate TasksAfter(s: State, m: Move, tasks': map<TaskId, Task>) {
    && m.task in tasks' && tasks'[m.task] == m.next
    && (m.spawn.NewTask? ==> m.spawn.id in tasks' && tasks'[m.spawn.id] == m.spawn.task)
    && (forall t | t in s.tasks && t != m.task :: t in tasks' && tasks'[t] == s.tasks[t])
  }

  lemma ApplyTasks(s: State, m: Move)
    requires m.spawn.NewTask? ==> m.spawn.id !in s.tasks && m.spawn.id != m.task
    ensures TasksAfter(s, m, Apply(s, m).tasks)
    ensures forall t | t in Apply(s, m).tasks ::
              t in s.tasks || t == m.task || (m.spawn.NewTask? && t == m.spawn.id)
  {
  }

  predicate TouchesFlight(e: Effect) { e.Open? || e.Publish? || e.Retire? }

  lemma FlightFrame(s: State, e: Effect)
    requires !TouchesFlight(e)
    ensures Do(s, e).inflight == s.inflight && Do(s, e).refreshes == s.refreshes
  {
  }

  lemma OwnedUntouched(s: State, m: Move, tasks': map<TaskId, Task>, f: RefreshId)
    requires FlightOk(s) && FlightFacts(s, m) && TasksAfter(s, m, tasks')
    requires !TouchesFlight(m.effect) && f in s.refreshes
    ensures Owned(tasks', f, s.refreshes[f])
            && tasks'[s.refreshes[f].owner].Done? == s.tasks[s.refreshes[f].owner].Done?
  {
    assert Owned(s.tasks, f, s.refreshes[f]);
  }

  lemma OwnedTouched(s: State, m: Move, tasks': map<TaskId, Task>, f: RefreshId)
    requires FlightOk(s) && FlightFacts(s, m) && TasksAfter(s, m, tasks')
    requires TouchesFlight(m.effect) && f in Do(s, m.effect).refreshes
    requires m.effect.Publish? ==> !m.effect.outcome.Pending?
    ensures Owned(tasks', f, Do(s, m.effect).refreshes[f])
    ensures f in s.refreshes && tasks'[s.refreshes[f].owner].Done? ==>
              s.tasks[s.refreshes[f].owner].Done? || (m.effect.Retire? && m.effect.refreshId == f)
  {
    if f in s.refreshes {
      assert Owned(s.tasks, f, s.refreshes[f]);
      var t := s.refreshes[f].owner;
      if t == m.task { assert Runs(s.inflight, s.refreshes, t, s.tasks[t]); }
      assert Runs(s.inflight, s.refreshes, m.task, s.tasks[m.task]);
    }
  }

  lemma OwnedStep(s: State, m: Move, tasks': map<TaskId, Task>, f: RefreshId)
    requires FlightOk(s) && FlightFacts(s, m) && f in Do(s, m.effect).refreshes
    requires m.effect.Publish? ==> !m.effect.outcome.Pending?
    requires TasksAfter(s, m, tasks')
    ensures Owned(tasks', f, Do(s, m.effect).refreshes[f])
  {
    if TouchesFlight(m.effect) {
      OwnedTouched(s, m, tasks', f);
    } else {
      FlightFrame(s, m.effect);
      OwnedUntouched(s, m, tasks', f);
    }
  }

  lemma InflightTouched(s: State, m: Move, tasks': map<TaskId, Task>, r: Route)
    requires FlightOk(s) && FlightFacts(s, m) && r in Do(s, m.effect).inflight
    requires TouchesFlight(m.effect) && (m.effect.Publish? ==> !m.effect.outcome.Pending?)
    requires TasksAfter(s, m, tasks')
    ensures var s' := Do(s, m.effect);
            && s'.inflight[r] in s'.refreshes
            && s'.refreshes[s'.inflight[r]].route == r
            && s'.refreshes[s'.inflight[r]].owner in tasks'
            && !tasks'[s'.refreshes[s'.inflight[r]].owner].Done?
  {
    if !(m.effect.Open? && r == m.effect.refresh.route) {
      assert r in s.inflight && Do(s, m.effect).inflight[r] == s.inflight[r];
      OwnedTouched(s, m, tasks', s.inflight[r]);
      assert Runs(s.inflight, s.refreshes, m.task, s.tasks[m.task]);
    }
  }

  lemma InflightStep(s: State, m: Move, tasks': map<TaskId, Task>, r: Route)
    requires FlightOk(s) && FlightFacts(s, m) && r in Do(s, m.effect).inflight
    requires m.effect.Publish? ==> !m.effect.outcome.Pending?
    requires TasksAfter(s, m, tasks')
    ensures var s' := Do(s, m.effect);
            && s'.inflight[r] in s'.refreshes
            && s'.refreshes[s'.inflight[r]].route == r
            && s'.refreshes[s'.inflight[r]].owner in tasks'
            && !tasks'[s'.refreshes[s'.inflight[r]].owner].Done?
  {
    if TouchesFlight(m.effect) {
      InflightTouched(s, m, tasks', r);
    } else {
      FlightFrame(s, m.effect);
      OwnedUntouched(s, m, tasks', s.inflight[r]);
    }
  }

  lemma FlightStep(s: State, m: Move)
    requires FlightOk(s) && FlightFacts(s, m)
    requires m.effect.Publish? ==> !m.effect.outcome.Pending?
    ensures FlightOk(Apply(s, m))
  {
    var s' := Apply(s, m);
    ApplyTasks(s, m);
    MovedRuns(s, m);
    forall t | t in s'.tasks
      ensures Runs(s'.inflight, s'.refreshes, t, s'.tasks[t])
    {
      if t != m.task && !(m.spawn.NewTask? && t == m.spawn.id) { OtherRuns(s, m, t); }
    }
    forall f | f in s'.refreshes
      ensures Owned(s'.tasks, f, s'.refreshes[f])
    {
      OwnedStep(s, m, s'.tasks, f);
    }
    forall r | r in s'.inflight
      ensures s'.inflight[r] in s'.refreshes
      ensures s'.refreshes[s'.inflight[r]].route == r
      ensures !s'.tasks[s'.refreshes[s'.inflight[r]].owner].Done?
    {
      InflightStep(s, m, s'.tasks, r);
    }
  }

  // ---- who still has to release a route state ----------------------------------------------

  /** The route state a task is going to release. */
  function Claim(task: Task): Option<Lead> {
    match task
    case Admitting(r, id) => Some(Lead(r, id))
    case Dispatched(d) => Some(Lead(d.route, d.id))
    case Mismatched(d) => Some(Lead(d.route, d.id))
    case Refreshing(_, d, phase) =>
      if phase.Publishing? || phase.Removing? then None else Some(Lead(d.route, d.id))
    case _ => None
  }

  predicate Claims(task: Task, lead: Lead) { Claim(task) == Some(lead) }

  /** The route state a refresh has released and not yet reported. */
  function Freed(task: Task): Option<Lead> {
    if task.Refreshing? && (task.phase.Publishing? || task.phase.Removing?)
    then Some(Lead(task.dispatch.route, task.dispatch.id)) else None
  }

  predicate IsActive(active: map<Route, StateId>, lead: Lead) {
    lead.route in active && active[lead.route] == lead.id
  }

  /** Every active route state is claimed by an unfinished GET outcome or by a refresh. */
  ghost predicate ClaimsOk(s: State) {
    && (forall r | r in s.active :: exists t :: t in s.tasks && Claims(s.tasks[t], Lead(r, s.active[r])))
    && (forall t | t in s.tasks && Freed(s.tasks[t]).Some? :: !IsActive(s.active, Freed(s.tasks[t]).value))
  }

  ghost predicate Handover(s: State, m: Move, lead: Lead)
    requires m.task in s.tasks
  {
    || m.effect == Release(lead.route, lead.id)
    || (m.spawn.NewTask? && Claims(m.spawn.task, lead))
    || (&& s.tasks[m.task].Dispatched?
        && lead.route in s.inflight
        && s.inflight[lead.route] in s.refreshes
        && s.refreshes[s.inflight[lead.route]].brokerId == lead.id)
  }

  ghost predicate ClaimFacts(s: State, m: Move) {
    && (m.spawn.NewTask? ==> m.spawn.id !in s.tasks && m.spawn.id != m.task && Freed(m.spawn.task).None?)
    && (m.task in s.tasks && Claim(s.tasks[m.task]).Some? && Claim(m.next) != Claim(s.tasks[m.task]) ==>
          Handover(s, m, Claim(s.tasks[m.task]).value))
    && (m.effect.Create? ==> m.effect.id !in s.states && Claims(m.next, Lead(m.effect.route, m.effect.id)))
    && (Freed(m.next).Some? ==>
          || m.effect == Release(Freed(m.next).value.route, Freed(m.next).value.id)
          || (m.task in s.tasks && Freed(s.tasks[m.task]) == Freed(m.next)))
  }

  lemma PlanClaims(hash: Route -> nat, s: State, step: Step)
    requires Plan(hash, s, step).Some?
    ensures ClaimFacts(s, Plan(hash, s, step).value)
  {
    match step
    case Advance(t, choice) => AdvanceClaims(s, t, choice);
    case Record(t, choice) => RecordClaims(hash, s, t, choice);
    case _ =>
  }

  lemma AdvanceClaims(s: State, t: TaskId, choice: Choice)
    requires t in s.tasks && s.tasks[t].Refreshing?
    requires var task := s.tasks[t]; AdvanceMove(s, t, task.refresh, task.dispatch, task.phase, choice).Some?
    ensures var task := s.tasks[t];
            ClaimFacts(s, AdvanceMove(s, t, task.refresh, task.dispatch, task.phase, choice).value)
  {
  }

  lemma RecordClaims(hash: Route -> nat, s: State, t: TaskId, choice: Choice)
    requires t in s.tasks && s.tasks[t].Committing? && RecordMove(hash, s, t, s.tasks[t], choice).Some?
    ensures ClaimFacts(s, RecordMove(hash, s, t, s.tasks[t], choice).value)
  {
  }

  /** Nothing but admission of a new state activates anything. */
  lemma ActiveAfter(s: State, e: Effect, lead: Lead)
    requires IsActive(Do(s, e).active, lead)
    ensures IsActive(s.active, lead) || e == Create(lead.route, lead.id)
    ensures e != Release(lead.route, lead.id)
  {
  }

  /** When a joiner's id is the one in flight, the refresh has not released it yet. */
  lemma RefreshClaims(s: State, lead: Lead) returns (u: TaskId)
    requires FlightOk(s) && ClaimsOk(s) && IsActive(s.active, lead)
    requires lead.route in s.inflight && s.refreshes[s.inflight[lead.route]].brokerId == lead.id
    ensures u in s.tasks && s.tasks[u].Refreshing? && Claims(s.tasks[u], lead)
  {
    var f := s.inflight[lead.route];
    u := s.refreshes[f].owner;
    assert Owned(s.tasks, f, s.refreshes[f]);
    assert Runs(s.inflight, s.refreshes, u, s.tasks[u]);
    assert Claims(s.tasks[u], lead);
  }

  lemma ClaimantExists(s: State, m: Move, r: Route)
    requires FlightOk(s) && ClaimsOk(s) && ClaimFacts(s, m) && r in Do(s, m.effect).active
    ensures exists t :: t in Apply(s, m).tasks && Claims(Apply(s, m).tasks[t], Lead(r, Do(s, m.effect).active[r]))
  {
    var lead := Lead(r, Do(s, m.effect).active[r]);
    ApplyTasks(s, m);
    ActiveAfter(s, m.effect, lead);
    if !m.effect.Create? || m.effect != Create(lead.route, lead.id) {
      var t :| t in s.tasks && Claims(s.tasks[t], lead);
      if t == m.task && !Claims(m.next, lead) { SomeoneTakesOver(s, m, lead); }
    }
  }

  lemma SomeoneTakesOver(s: State, m: Move, lead: Lead)
    requires FlightOk(s) && ClaimsOk(s) && ClaimFacts(s, m)
    requires m.task in s.tasks && Claims(s.tasks[m.task], lead) && !Claims(m.next, lead)
    requires IsActive(s.active, lead) && IsActive(Do(s, m.effect).active, lead)
    ensures exists t :: t in Apply(s, m).tasks && Claims(Apply(s, m).tasks[t], lead)
  {
    ApplyTasks(s, m);
    assert Handover(s, m, lead);
    if !(m.spawn.NewTask? && Claims(m.spawn.task, lead)) {
      ActiveAfter(s, m.effect, lead);
      var u := RefreshClaims(s, lead);
      assert Apply(s, m).tasks[u] == s.tasks[u];
    }
  }

  lemma FreedStaysInactive(s: State, m: Move, t: TaskId)
    requires Shape(s) && ClaimsOk(s) && ClaimFacts(s, m) && t in Apply(s, m).tasks
    requires Freed(Apply(s, m).tasks[t]).Some?
    ensures !IsActive(Do(s, m.effect).active, Freed(Apply(s, m).tasks[t]).value)
  {
    var lead := Freed(Apply(s, m).tasks[t]).value;
    if t in s.tasks { assert TaskOk(s.states, s.admitted, s.tasks[t]); }
    if IsActive(Do(s, m.effect).active, lead) {
      ActiveAfter(s, m.effect, lead);
    }
  }

  lemma ClaimsStep(s: State, m: Move)
    requires Shape(s) && FlightOk(s) && ClaimsOk(s) && ClaimFacts(s, m)
    ensures ClaimsOk(Apply(s, m))
  {
    var s' := Apply(s, m);
    forall r | r in s'.active
      ensures exists t :: t in s'.tasks && Claims(s'.tasks[t], Lead(r, s'.active[r]))
    {
      ClaimantExists(s, m, r);
    }
    forall t | t in s'.tasks && Freed(s'.tasks[t]).Some?
      ensures !IsActive(s'.active, Freed(s'.tasks[t]).value)
    {
      FreedStaysInactive(s, m, t);
    }
  }
}

/**
 Provider refresh, negative cache and mutation generations, as one step relation.

 Broker and server tasks run concurrently: GETs that missed the cache, provider
 refreshes, and mutation commits.  Every step below is one critical section of the
 source (one lock acquisition, one atomic load, one map update), so that any
 interleaving of tasks is a sequence of steps.

 `MutationRouteState` objects are shared by reference and outlive their entry in the
 route map.  They are kept in `states`, keyed by their provider refresh id, which
 is a fresh UUID and so names the object.  Tasks, route states and refreshes are
 never removed from their tables; `active` and `inflight` are the source's maps.
 */
module RefreshProtocol {
  import opened Wrappers
  import opened Routes

  type TaskId = nat
  type StateId = nat
  type RefreshId = nat

  const MUTATION_SHARD_COUNT: nat := 32

  /** The part of a provider dispatch that the protocol uses. */
  datatype Dispatch = Dispatch(route: Route, id: StateId, generation: nat)

  datatype RouteState = RouteState(route: Route, generation: nat, gate: Option<TaskId>)

  datatype Completion = Pending | Value | Miss | RateLimited(retryAfterMs: nat) | Failed

  /** `owner` and `sends` are history: which task runs the refresh and how often
      a terminal completion was sent. */
  datatype Refresh = Refresh(route: Route, brokerId: StateId, completion: Completion, owner: TaskId, sends: nat)

  /** Where a refresh is: charging the rate limit, waiting for the provider, inside
      `confirm_provider_miss` (`Looking` to `Unlocking`), or completing. */
  datatype Phase =
    | RateCheck
    | Querying
    | Accepting(child: TaskId)
    | Looking | Checking | Reading | Gating | Rechecking | Inserting | Dropping | Unlocking
    | Releasing(outcome: Completion)
    | Publishing(outcome: Completion)
    | Removing

  /** A route state that a broad or exact mutation has found active. */
  datatype Lead = Lead(route: Route, id: StateId)

  datatype CommitPc =
    | Next
    | Scanning(shard: nat, affected: set<Lead>)
    | Draining(affected: set<Lead>)
    | Locking(lead: Lead, affected: set<Lead>)
    | Bumping(lead: Lead, affected: set<Lead>)
    | Invalidating(lead: Lead, affected: set<Lead>)
    | Leaving(lead: Lead, affected: set<Lead>)

  datatype Task =
    | Admitting(route: Route, id: StateId)
    | Dispatched(dispatch: Dispatch)
    | Mismatched(dispatch: Dispatch)
    | Refreshing(refresh: RefreshId, dispatch: Dispatch, phase: Phase)
    | Committing(scopes: seq<Scope>, pc: CommitPc, before: set<Dispatch>, found: bool)
    | Done

  /** History of a recorded mutation: what it covered, the dispatches admitted before
      it started recording, and whether an exact mutation found its route active. */
  datatype Recorded = Recorded(scope: Scope, before: set<Dispatch>, found: bool)

  datatype State = State(
    active: map<Route, StateId>,
    states: map<StateId, RouteState>,
    markers: map<Route, Dispatch>,
    inflight: map<Route, RefreshId>,
    refreshes: map<RefreshId, Refresh>,
    tasks: map<TaskId, Task>,
    admitted: set<Dispatch>,
    recorded: set<Recorded>)

  const INITIAL := State(map[], map[], map[], map[], map[], map[], {}, {})

  /** What the provider's answer makes of a refresh. */
  datatype Answer =
    | Accepted(child: TaskId)   // a value, committed by `child`
    | Confirmed                 // a miss with a positive miss TTL
    | Unconfirmed               // a miss with a zero miss TTL
    | Lost                      // an error, a timeout, or a value that was refused

  datatype Choice = Go | Limited(retryAfterMs: nat) | Answered(answer: Answer) | Present | Pick(lead: Lead)

  datatype Step =
    | Arrive(task: TaskId, route: Route, newId: StateId)
    | ReadGeneration(task: TaskId)
    | Finish(task: TaskId, refresh: RefreshId, spawned: TaskId)
    | DropMismatched(task: TaskId)
    | Advance(task: TaskId, choice: Choice)
    | Begin(task: TaskId, scopes: seq<Scope>)
    | Record(task: TaskId, choice: Choice)
    | Expire(task: TaskId, route: Route)

  // ---- the shared tables ----------------------------------------------------------

  /** What one critical section does to the shared tables. */
  datatype Effect =
    | Nothing
    | Create(route: Route, id: StateId)
    | Admit(dispatch: Dispatch)
    | Open(refreshId: RefreshId, refresh: Refresh)
    | Release(route: Route, id: StateId)
    | Gate(id: StateId, holder: Option<TaskId>)
    | Bump(id: StateId)
    | Mark(dispatch: Dispatch)
    | Unmark(route: Route)
    | Publish(refreshId: RefreshId, outcome: Completion)
    | Retire(route: Route, refreshId: RefreshId)
    | Settle(record: Recorded, left: map<Route, Dispatch>)

  /** Removes the route only when it still carries this refresh id. */
  function Released(active: map<Route, StateId>, route: Route, id: StateId): map<Route, StateId> {
    if route in active && active[route] == id then active - {route} else active
  }

  /** Removes the in-flight entry only when it is this very refresh. */
  function Retired(inflight: map<Route, RefreshId>, route: Route, f: RefreshId): map<Route, RefreshId> {
    if route in inflight && inflight[route] == f then inflight - {route} else inflight
  }

  /** Markers left after a scope has been swept; only broad mutations sweep. */
  function Swept(markers: map<Route, Dispatch>, scope: Scope): map<Route, Dispatch> {
    if scope.One? then markers else map r | r in markers && !Covers(scope, r) :: markers[r]
  }

  function Do(s: State, effect: Effect): State {
    match effect
    case Nothing => s
    case Create(r, id) => s.(active := s.active[r := id], states := s.states[id := RouteState(r, 0, None)])
    case Admit(d) => s.(admitted := s.admitted + {d})
    case Open(f, refresh) => s.(inflight := s.inflight[refresh.route := f], refreshes := s.refreshes[f := refresh])
    case Release(r, id) => s.(active := Released(s.active, r, id))
    case Gate(id, holder) =>
      if id in s.states then s.(states := s.states[id := s.states[id].(gate := holder)]) else s
    case Bump(id) =>
      if id in s.states
      then s.(states := s.states[id := s.states[id].(generation := s.states[id].generation + 1)])
      else s
    case Mark(d) => s.(markers := s.markers[d.route := d])
    case Unmark(r) => s.(markers := s.markers - {r})
    case Publish(f, outcome) =>
      if f in s.refreshes
      then s.(refreshes := s.refreshes[f := s.refreshes[f].(completion := outcome, sends := s.refreshes[f].sends + 1)])
      else s
    case Retire(r, f) => s.(inflight := Retired(s.inflight, r, f))
    case Settle(record, left) => s.(markers := left, recorded := s.recorded + {record})
  }

  /** A step of one task: its next program point, an effect, and at most one new task. */
  datatype Move = Move(task: TaskId, next: Task, effect: Effect, spawn: Spawn)

  datatype Spawn = NoTask | NewTask(id: TaskId, task: Task)

  predicate GateFree(s: State, id: StateId) {
    id in s.states && s.states[id].gate.None?
  }

  function GenerationOf(s: State, id: StateId): Option<nat> {
    if id in s.states then Some(s.states[id].generation) else None
  }

  function Shard(hash: Route -> nat, route: Route): nat {
    hash(route) % MUTATION_SHARD_COUNT
  }

  /** The active routes of one namespace that live in one shard. */
  function ShardLeads(hash: Route -> nat, s: State, namespace: string, shard: nat): set<Lead> {
    set r | r in s.active && r.namespace == namespace && Shard(hash, r) == shard :: Lead(r, s.active[r])
  }

  // ---- GET admission and single flight ----------------------------------------------

  function ArriveMove(s: State, t: TaskId, route: Route, newId: StateId): Option<Move> {
    if t in s.tasks then None
    else if route in s.active then Some(Move(t, Admitting(route, s.active[route]), Nothing, NoTask))
    else if newId in s.states then None
    else Some(Move(t, Admitting(route, newId), Create(route, newId), NoTask))
  }

  function AdmitMove(s: State, t: TaskId, route: Route, id: StateId): Option<Move> {
    if GateFree(s, id) then
      var d := Dispatch(route, id, s.states[id].generation);
      Some(Move(t, Dispatched(d), Admit(d), NoTask))
    else None
  }

  /** The locked lookup-or-insert of `finish_outcome`.  A joiner whose refresh id differs
      from the one in flight still has to release its own id. */
  function FinishMove(s: State, t: TaskId, d: Dispatch, f: RefreshId, spawned: TaskId): Option<Move> {
    if d.route in s.inflight then
      if s.inflight[d.route] !in s.refreshes then None
      else if s.refreshes[s.inflight[d.route]].brokerId == d.id then Some(Move(t, Done, Nothing, NoTask))
      else Some(Move(t, Mismatched(d), Nothing, NoTask))
    else if f in s.refreshes || spawned in s.tasks then None
    else Some(Move(t, Done, Open(f, Refresh(d.route, d.id, Pending, spawned, 0)),
                   NewTask(spawned, Refreshing(f, d, RateCheck))))
  }

  // ---- the refresh task ---------------------------------------------------------------

  /** What can be chosen at a point: the rate limiter, the provider and the store read answer, and
      every other point just goes on. */
  predicate Offered(phase: Phase, choice: Choice) {
    match phase
    case RateCheck => choice.Go? || choice.Limited?
    case Querying => choice.Answered?
    case Reading => choice.Go? || choice.Present?
    case _ => choice.Go?
  }

  function AdvanceMove(s: State, t: TaskId, f: RefreshId, d: Dispatch, phase: Phase, choice: Choice): Option<Move> {
    match phase
    case RateCheck =>
      Some(To(t, f, d, if choice.Limited? then Releasing(RateLimited(choice.retryAfterMs)) else Querying, Nothing))
    case Querying =>
      if !choice.Answered? then None
      else (match choice.answer
            case Accepted(child) =>
              if child in s.tasks then None
              else Some(Move(t, Refreshing(f, d, Accepting(child)), Nothing,
                             NewTask(child, Committing([One(d.route)], Next, {}, false))))
            case Confirmed => Some(To(t, f, d, Looking, Nothing))
            case Unconfirmed => Some(To(t, f, d, Releasing(Miss), Nothing))
            case Lost => Some(To(t, f, d, Releasing(Failed), Nothing)))
    case Accepting(child) =>
      if child in s.tasks && s.tasks[child].Done? then Some(To(t, f, d, Releasing(Value), Nothing)) else None
    case Looking =>
      var found := d.route in s.active && s.active[d.route] == d.id;
      Some(To(t, f, d, if found then Checking else Releasing(Miss), Nothing))
    case Checking =>
      Some(To(t, f, d, if GenerationOf(s, d.id) == Some(d.generation) then Reading else Releasing(Miss), Nothing))
    case Reading =>
      Some(To(t, f, d, if choice.Present? then Releasing(Miss) else Gating, Nothing))
    case Gating =>
      if GateFree(s, d.id) then Some(To(t, f, d, Rechecking, Gate(d.id, Some(t)))) else None
    case Rechecking =>
      Some(To(t, f, d, if GenerationOf(s, d.id) == Some(d.generation) then Inserting else Dropping, Nothing))
    case Inserting => Some(To(t, f, d, Dropping, Mark(d)))
    case Dropping => Some(To(t, f, d, Unlocking, Release(d.route, d.id)))
    case Unlocking => Some(To(t, f, d, Releasing(Miss), Gate(d.id, None)))
    case Releasing(outcome) => Some(To(t, f, d, Publishing(outcome), Release(d.route, d.id)))
    case Publishing(outcome) => Some(To(t, f, d, Removing, Publish(f, outcome)))
    case Removing => Some(Move(t, Done, Retire(d.route, f), NoTask))
  }

  function To(t: TaskId, f: RefreshId, d: Dispatch, phase: Phase, effect: Effect): Move {
    Move(t, Refreshing(f, d, phase), effect, NoTask)
  }

  // ---- mutation commits ------------------------------------------------------------------

  function RecordMove(hash: Route -> nat, s: State, t: TaskId, c: Task, choice: Choice): Option<Move>
    requires c.Committing?
  {
    if c.scopes == [] then (if c.pc.Next? then Some(Move(t, Done, Nothing, NoTask)) else None)
    else
      var scope := c.scopes[0];
      match c.pc
      case Next =>
        // the exact lookup is one step; a broad mutation walks the shards
        var started := c.(before := s.admitted, found := scope.One? && scope.route in s.active);
        if scope.Many? then Some(Move(t, started.(pc := Scanning(0, {})), Nothing, NoTask))
        else
          var leads := if scope.route in s.active then {Lead(scope.route, s.active[scope.route])} else {};
          Some(Move(t, started.(pc := Draining(leads)), Nothing, NoTask))
      case Scanning(shard, affected) =>
        if shard >= MUTATION_SHARD_COUNT then Some(Move(t, c.(pc := Draining(affected)), Nothing, NoTask))
        else if scope.One? then None
        else
          var leads := affected + ShardLeads(hash, s, scope.namespace, shard);
          Some(Move(t, c.(pc := Scanning(shard + 1, leads)), Nothing, NoTask))
      case Draining(affected) =>
        if affected == {} then
          var settle := Settle(Recorded(scope, c.before, c.found), Swept(s.markers, scope));
          Some(Move(t, c.(scopes := c.scopes[1..], pc := Next), settle, NoTask))
        else if !choice.Pick? || choice.lead !in affected then None
        else if Covers(scope, choice.lead.route) then
          Some(Move(t, c.(pc := Locking(choice.lead, affected - {choice.lead})), Nothing, NoTask))
        else Some(Move(t, c.(pc := Draining(affected - {choice.lead})), Nothing, NoTask))
      case Locking(lead, affected) =>
        if GateFree(s, lead.id)
        then Some(Move(t, c.(pc := Bumping(lead, affected)), Gate(lead.id, Some(t)), NoTask))
        else None
      case Bumping(lead, affected) =>
        Some(Move(t, c.(pc := Invalidating(lead, affected)), Bump(lead.id), NoTask))
      case Invalidating(lead, affected) =>
        Some(Move(t, c.(pc := Leaving(lead, affected)), Unmark(lead.route), NoTask))
      case Leaving(lead, affected) =>
        Some(Move(t, c.(pc := Draining(affected)), Gate(lead.id, None), NoTask))
  }

  // ---- runs ----------------------------------------------------------------------------------

  /** The move a step makes; `None` when the step is not enabled.  `hash` places routes
      in shards. */
  function Plan(hash: Route -> nat, s: State, step: Step): Option<Move> {
    match step
    case Arrive(t, route, newId) => ArriveMove(s, t, route, newId)
    case ReadGeneration(t) =>
      if t in s.tasks && s.tasks[t].Admitting? then AdmitMove(s, t, s.tasks[t].route, s.tasks[t].id) else None
    case Finish(t, f, spawned) =>
      if t in s.tasks && s.tasks[t].Dispatched? then FinishMove(s, t, s.tasks[t].dispatch, f, spawned) else None
    case DropMismatched(t) =>
      if t in s.tasks && s.tasks[t].Mismatched?
      then Some(Move(t, Done, Release(s.tasks[t].dispatch.route, s.tasks[t].dispatch.id), NoTask))
      else None
    case Advance(t, choice) =>
      if t in s.tasks && s.tasks[t].Refreshing? && Offered(s.tasks[t].phase, choice)
      then AdvanceMove(s, t, s.tasks[t].refresh, s.tasks[t].dispatch, s.tasks[t].phase, choice)
      else None
    case Begin(t, scopes) =>
      if t in s.tasks then None else Some(Move(t, Committing(scopes, Next, {}, false), Nothing, NoTask))
    case Record(t, choice) =>
      if t in s.tasks && s.tasks[t].Committing? then RecordMove(hash, s, t, s.tasks[t], choice) else None
    case Expire(t, route) =>
      if t in s.tasks then None else Some(Move(t, Done, Unmark(route), NoTask))
  }

  function Apply(s: State, move: Move): State {
    var moved := s.tasks[move.task := move.next];
    Do(s, move.effect).(tasks := if move.spawn.NewTask? then moved[move.spawn.id := move.spawn.task] else moved)
  }

  /** A refresh that is confirming a miss can still insert its marker: its generation is current,
      and either it holds the gate or nobody does.  A gate held by a commit is about to be, or
      has been, used to bump the generation. */
  predicate CanMark(s: State, task: Task) {
    && task.Refreshing?
    && GenerationOf(s, task.dispatch.id) == Some(task.dispatch.generation)
    && (|| task.phase.Rechecking? || task.phase.Inserting?
        || ((task.phase.Checking? || task.phase.Reading? || task.phase.Gating?) && GateFree(s, task.dispatch.id)))
  }

  /** A mismatched joiner is late when the id it is about to release is active and belongs to the
      route's in-flight refresh, and that refresh can still insert a marker. */
  predicate Late(s: State, step: Step) {
    && step.DropMismatched?
    && step.task in s.tasks
    && s.tasks[step.task].Mismatched?
    && LateRelease(s, s.tasks[step.task].dispatch.route, s.tasks[step.task].dispatch.id)
  }

  predicate LateRelease(s: State, route: Route, id: StateId) {
    && route in s.active && s.active[route] == id
    && route in s.inflight
    && s.inflight[route] in s.refreshes
    && var refresh := s.refreshes[s.inflight[route]];
       && refresh.brokerId == id
       && refresh.owner in s.tasks
       && CanMark(s, s.tasks[refresh.owner])
  }

  /** The state after a sequence of steps; `None` when some step was not enabled. */
  function Run(hash: Route -> nat, s: State, steps: seq<Step>): Option<State>
    decreases |steps|
  {
    if steps == [] then Some(s)
    else
      var move := Plan(hash, s, steps[0]);
      if move.None? then None else Run(hash, Apply(s, move.value), steps[1..])
  }

  /** No step of the run is a late release. */
  predicate Quiet(hash: Route -> nat, s: State, steps: seq<Step>)
    decreases |steps|
  {
    steps == [] ||
    (&& !Late(s, steps[0])
     && var move := Plan(hash, s, steps[0]);
        move.Some? ==> Quiet(hash, Apply(s, move.value), steps[1..]))
  }
}

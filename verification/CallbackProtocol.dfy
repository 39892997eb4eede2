/** Callback correlation and write-through: the interleaved steps of `invoke`,
    `complete_result`, `register_pending_result`, `remove_pending_result`,
    `remove_connection`, `prepare_mutation` and the commit in `finish_outcome`. Every step is
    the work done under one lock, or one local step of a task. */
module CallbackProtocol {
  import opened Wrappers
  import opened Routes
  import opened Registry
  import opened Mutations

  type Id = nat
  type Owner = nat

  datatype Answer = Operation(ok: bool) | Query(found: bool, ok: bool)

  /** A connection's `PendingRequests`; `lock` is the request that holds its mutex across two
      steps of a registration. */
  datatype Handle = Handle(ids: set<Id>, closed: bool, lock: Option<Id>)

  /** How far `remove_connection` is: it takes the ids, unlists the connection, purges the ids. */
  datatype Closing = Open | Taken(ids: set<Id>) | Unlisted(ids: set<Id>) | Gone

  datatype Connection = Connection(handle: Handle, listed: bool, closing: Closing)

  datatype Phase =
    | Direct                 // may commit at once
    | Looking                // will look the owner's handle up
    | Registering            // has the handle, waits for its mutex
    | Locked                 // holds the mutex of a handle that is not closed
    | Inserted               // is in `pending_results`, still holds the mutex
    | Sending                // registered, will send the frame
    | Waiting
    | Acknowledged           // the adapter has said yes
    | Purging                // will leave `pending_results`
    | Dropping               // will leave the handle's ids
    | Finished(committed: bool)

  /** A mutation or, without one, a query; `stores` are the registrations that its
      preparation saw. */
  datatype Request = Request(owner: Owner, mutation: Option<Mutation>, fromAdapter: bool,
                             stores: seq<StoreRegistration>, phase: Phase)

  /** A task that handles a result frame. From `Claimed` on it owns the removed entry. */
  datatype Completer =
    | Expecting(id: Id, answer: Answer)
    | Claimed(id: Id, owner: Owner, answer: Answer)
    | Unlinking(id: Id, owner: Owner, answer: Answer)
    | Delivering(id: Id, answer: Answer)

  /** What has happened, in order. */
  datatype Event =
    | Answered(connection: Owner, id: Id, answer: Answer)
    | Delivered(id: Id, answer: Answer)
    | Applied(id: Id, mutation: Mutation)
    | Expired(route: Route)

  datatype State = State(
    connections: map<Owner, Connection>,
    pending: map<Id, Owner>,
    requests: map<Id, Request>,
    completers: map<nat, Completer>,
    channels: map<Id, Answer>,
    stores: seq<StoreRegistration>,
    cache: Cache,
    log: seq<Event>)

  datatype Move =
    | Connect(c: Owner)
    | ChangeStores(stores: seq<StoreRegistration>)
    | Prepare(id: Id, mutation: Mutation, fromAdapter: bool)
    | Ask(id: Id, c: Owner)
    | LookUp(id: Id)
    | TakeLock(id: Id)
    | Insert(id: Id)
    | Link(id: Id)
    | Send(id: Id, sent: bool)
    | Receive(id: Id)
    | GiveUp(id: Id)
    | Purge(id: Id)
    | Drop(id: Id)
    | Commit(id: Id)
    | Frame(t: nat, c: Owner, id: Id, answer: Answer)
    | Claim(t: nat)
    | FindHandle(t: nat)
    | Unlink(t: nat)
    | Deliver(t: nat)
    | TakeIds(c: Owner)
    | Unlist(c: Owner)
    | PurgeIds(c: Owner)
    | Expire(route: Route)

  ghost const INITIAL := State(map[], map[], map[], map[], map[], [], map[], [])

  predicate In(s: State, id: Id, phase: Phase) { id in s.requests && s.requests[id].phase == phase }

  predicate Unlocked(s: State, c: Owner) { c in s.connections && s.connections[c].handle.lock.None? }

  /** The frame of a request may have gone out to its owner. */
  predicate WasSent(phase: Phase) {
    phase in {Waiting, Acknowledged, Purging, Dropping} || phase.Finished?
  }

  function FirstPhase(routing: Routing): Phase {
    match routing
    case Direct => Phase.Direct
    case Through(_) => Looking
    case Refused => Finished(false)
  }

  function OwnerOf(routing: Routing): Owner { if routing.Through? then routing.owner else 0 }

  /** Steps of a request up to its registration. */
  predicate Registers(m: Move) { m.Prepare? || m.Ask? || m.LookUp? || m.TakeLock? || m.Insert? || m.Link? }

  /** Steps of a request from sending its frame on. */
  predicate Concludes(m: Move) { m.Send? || m.Receive? || m.GiveUp? || m.Purge? || m.Drop? || m.Commit? }

  /** Steps of a task that handles a result frame. */
  predicate Completes(m: Move) { m.Frame? || m.Claim? || m.FindHandle? || m.Unlink? || m.Deliver? }

  predicate Enabled(s: State, m: Move) {
    if Registers(m) then MayRegister(s, m)
    else if Concludes(m) then MayConclude(s, m)
    else if Completes(m) then MayComplete(s, m)
    else MayChange(s, m)
  }

  predicate MayRegister(s: State, m: Move)
    requires Registers(m)
  {
    match m
    case Prepare(id, _, _) => id !in s.requests
    case Ask(id, _) => id !in s.requests
    case LookUp(id) => In(s, id, Looking)
    case TakeLock(id) => In(s, id, Registering) && Unlocked(s, s.requests[id].owner)
    case Insert(id) => In(s, id, Locked)
    case Link(id) => In(s, id, Inserted) && s.requests[id].owner in s.connections
  }

  predicate MayConclude(s: State, m: Move)
    requires Concludes(m)
  {
    match m
    case Send(id, _) => In(s, id, Sending)
    case Receive(id) => In(s, id, Waiting) && id in s.channels
    case GiveUp(id) => In(s, id, Waiting)
    case Purge(id) => In(s, id, Purging)
    case Drop(id) => In(s, id, Dropping) && Unlocked(s, s.requests[id].owner)
    case Commit(id) => (In(s, id, Phase.Direct) || In(s, id, Acknowledged)) && s.requests[id].mutation.Some?
  }

  predicate MayComplete(s: State, m: Move)
    requires Completes(m)
  {
    match m
    // Any connection may answer, but only an identifier that has been sent: they are random UUIDs.
    case Frame(t, _, id, _) =>
      t !in s.completers && id in s.pending && id in s.requests && WasSent(s.requests[id].phase)
    case Claim(t) => t in s.completers && s.completers[t].Expecting?
    case FindHandle(t) => t in s.completers && s.completers[t].Claimed?
    case Unlink(t) => t in s.completers && s.completers[t].Unlinking? && Unlocked(s, s.completers[t].owner)
    case Deliver(t) => t in s.completers && s.completers[t].Delivering?
  }

  predicate MayChange(s: State, m: Move)
    requires !Registers(m) && !Concludes(m) && !Completes(m)
  {
    match m
    case Connect(c) => c !in s.connections
    case ChangeStores(_) => true
    case TakeIds(c) => Unlocked(s, c) && s.connections[c].closing.Open?
    case Unlist(c) => c in s.connections && s.connections[c].closing.Taken?
    case PurgeIds(c) => c in s.connections && s.connections[c].closing.Unlisted?
    case Expire(_) => true
  }

  // ---- updates -----------------------------------------------------------------------------------

  function At(s: State, id: Id, phase: Phase): State
    requires id in s.requests
  {
    s.(requests := s.requests[id := s.requests[id].(phase := phase)])
  }

  function WithConnection(s: State, c: Owner, connection: Connection): State {
    s.(connections := s.connections[c := connection])
  }

  function WithHandle(s: State, c: Owner, handle: Handle): State
    requires c in s.connections
  {
    WithConnection(s, c, s.connections[c].(handle := handle))
  }

  function Without(s: State, c: Owner, id: Id): State
    requires c in s.connections
  {
    var h := s.connections[c].handle;
    WithHandle(s, c, h.(ids := h.ids - {id}))
  }

  function Logged(s: State, e: Event): State { s.(log := s.log + [e]) }

  function WithCompleter(s: State, t: nat, completer: Completer): State {
    s.(completers := s.completers[t := completer])
  }

  /** What a waiting task does with the result it receives. */
  function Judged(request: Request, answer: Answer): Phase {
    if request.mutation.Some? && answer == Operation(true) then Acknowledged else Finished(false)
  }

  function Apply(s: State, m: Move): State
    requires Enabled(s, m)
  {
    if Registers(m) then Register(s, m)
    else if Concludes(m) then Conclude(s, m)
    else if Completes(m) then Complete(s, m)
    else Change(s, m)
  }

  function Register(s: State, m: Move): State
    requires Registers(m) && MayRegister(s, m)
  {
    match m
    case Prepare(id, mutation, fromAdapter) =>
      var routing := Routed(s.stores, mutation, fromAdapter);
      var request := Request(OwnerOf(routing), Some(mutation), fromAdapter, s.stores, FirstPhase(routing));
      s.(requests := s.requests[id := request])
    case Ask(id, c) => s.(requests := s.requests[id := Request(c, None, false, [], Looking)])
    case LookUp(id) =>
      var c := s.requests[id].owner;
      At(s, id, if c in s.connections && s.connections[c].listed then Registering else Finished(false))
    case TakeLock(id) =>
      var c := s.requests[id].owner;
      var h := s.connections[c].handle;
      if h.closed then At(s, id, Finished(false)) else WithHandle(At(s, id, Locked), c, h.(lock := Some(id)))
    case Insert(id) => At(s, id, Inserted).(pending := s.pending[id := s.requests[id].owner])
    case Link(id) =>
      var c := s.requests[id].owner;
      var h := s.connections[c].handle;
      WithHandle(At(s, id, Sending), c, h.(ids := h.ids + {id}, lock := None))
  }

  function Conclude(s: State, m: Move): State
    requires Concludes(m) && MayConclude(s, m)
  {
    match m
    case Send(id, sent) => At(s, id, if sent then Waiting else Purging)
    case Receive(id) => At(s, id, Judged(s.requests[id], s.channels[id]))
    case GiveUp(id) => At(s, id, Purging)
    case Purge(id) => At(s, id, Dropping).(pending := s.pending - {id})
    case Drop(id) => At(Without(s, s.requests[id].owner, id), id, Finished(false))
    case Commit(id) =>
      var mutation := s.requests[id].mutation.value;
      match Committed(s.cache, mutation)
      case None => At(s, id, Finished(false))
      case Some(cache) => Logged(At(s, id, Finished(true)), Applied(id, mutation)).(cache := cache)
  }

  function Complete(s: State, m: Move): State
    requires Completes(m) && MayComplete(s, m)
  {
    match m
    case Frame(t, c, id, answer) => Logged(WithCompleter(s, t, Expecting(id, answer)), Answered(c, id, answer))
    case Claim(t) =>
      var k := s.completers[t];
      if k.id in s.pending
      then WithCompleter(s, t, Claimed(k.id, s.pending[k.id], k.answer)).(pending := s.pending - {k.id})
      else s.(completers := s.completers - {t})
    case FindHandle(t) =>
      var k := s.completers[t];
      WithCompleter(s, t, if k.owner in s.connections && s.connections[k.owner].listed
                          then Unlinking(k.id, k.owner, k.answer) else Delivering(k.id, k.answer))
    case Unlink(t) =>
      var k := s.completers[t];
      WithCompleter(Without(s, k.owner, k.id), t, Delivering(k.id, k.answer))
    case Deliver(t) =>
      var k := s.completers[t];
      var sent := s.(completers := s.completers - {t}, channels := s.channels[k.id := k.answer]);
      Logged(sent, Delivered(k.id, k.answer))
  }

  function Change(s: State, m: Move): State
    requires !Registers(m) && !Concludes(m) && !Completes(m) && MayChange(s, m)
  {
    match m
    case Connect(c) => WithConnection(s, c, Connection(Handle({}, false, None), true, Open))
    case ChangeStores(stores) => s.(stores := stores)
    case TakeIds(c) =>
      var h := s.connections[c].handle;
      WithConnection(s, c, Connection(h.(ids := {}, closed := true), true, Taken(h.ids)))
    case Unlist(c) =>
      var conn := s.connections[c];
      WithConnection(s, c, conn.(listed := false, closing := Unlisted(conn.closing.ids)))
    case PurgeIds(c) =>
      var conn := s.connections[c];
      WithConnection(s, c, conn.(closing := Gone)).(pending := s.pending - conn.closing.ids)
    case Expire(route) => Logged(s, Expired(route)).(cache := s.cache - {route})
  }

  /** The states of a run from `s` along the moves. */
  ghost predicate Runs(s: State, moves: seq<Move>, t: State)
    decreases |moves|
  {
    if moves == [] then s == t
    else Enabled(s, moves[0]) && Runs(Apply(s, moves[0]), moves[1..], t)
  }
}

/** What every step of the callback protocol keeps. */
module CallbackInvariants {
  import opened Wrappers
  import opened Mutations
  import opened CallbackProtocol

  // ---- handles and their mutexes ------------------------------------------------------------------

  predicate HandleOk(connection: Connection) {
    var h := connection.handle;
    && (h.closed <==> !connection.closing.Open?)
    && (h.closed ==> h.ids == {} && h.lock.None?)
    && (connection.listed <==> connection.closing.Open? || connection.closing.Taken?)
  }

  predicate HasHandle(phase: Phase) {
    phase in {Registering, Locked, Inserted, Sending, Waiting, Purging, Dropping}
  }

  ghost predicate Locks(connections: map<Owner, Connection>, requests: map<Id, Request>) {
    && (forall c | c in connections :: HandleOk(connections[c]))
    && (forall c | c in connections && connections[c].handle.lock.Some? ::
          var id := connections[c].handle.lock.value;
          id in requests && requests[id].owner == c && requests[id].phase in {Locked, Inserted})
    && (forall id | id in requests && HasHandle(requests[id].phase) :: requests[id].owner in connections)
    && (forall id | id in requests && requests[id].phase in {Locked, Inserted} ::
          connections[requests[id].owner].handle.lock == Some(id))
  }

  // ---- pending results ------------------------------------------------------------------------------

  /** The ids that a connection's removal will still purge. */
  function Purged(closing: Closing): set<Id> {
    if closing.Taken? || closing.Unlisted? then closing.ids else {}
  }

  /** A pending result is in its owner's pending set, being purged, or being registered by the
      request that holds the owner's mutex. */
  predicate Accounted(connection: Connection, id: Id) {
    id in connection.handle.ids || id in Purged(connection.closing) || connection.handle.lock == Some(id)
  }

  ghost predicate Owned(connections: map<Owner, Connection>, pending: map<Id, Owner>, requests: map<Id, Request>) {
    forall id | id in pending ::
      && id in requests && requests[id].owner == pending[id]
      && requests[id].phase in {Inserted, Sending, Waiting, Purging}
      && pending[id] in connections && Accounted(connections[pending[id]], id)
  }

  // ---- deliveries -----------------------------------------------------------------------------------

  predicate Claims(k: Completer) { !k.Expecting? }

  ghost predicate WasDelivered(log: seq<Event>, id: Id) { exists a :: Delivered(id, a) in log }

  ghost predicate Unclaimed(pending: map<Id, Owner>, requests: map<Id, Request>, id: Id) {
    id in requests && WasSent(requests[id].phase) && id !in pending
  }

  ghost predicate Tickets(pending: map<Id, Owner>, requests: map<Id, Request>, completers: map<nat, Completer>,
                          log: seq<Event>) {
    && (forall t | t in completers :: completers[t].id in requests && WasSent(requests[completers[t].id].phase))
    && (forall t | t in completers && Claims(completers[t]) ::
          completers[t].id !in pending && !WasDelivered(log, completers[t].id))
    && (forall t | t in completers && (completers[t].Claimed? || completers[t].Unlinking?) ::
          completers[t].owner == requests[completers[t].id].owner)
    && (forall t, u | t in completers && u in completers && Claims(completers[t]) && Claims(completers[u])
                      && completers[t].id == completers[u].id :: t == u)
    && (forall id | WasDelivered(log, id) :: Unclaimed(pending, requests, id))
  }

  /** No request id is delivered twice. */
  ghost predicate DeliveredOnce(log: seq<Event>) {
    forall i, j | 0 <= i < j < |log| && log[i].Delivered? && log[j].Delivered? :: log[i].id != log[j].id
  }

  ghost predicate Channels(channels: map<Id, Answer>, log: seq<Event>) {
    forall id | id in channels :: WasDelivered(log, id)
  }

  // ---- nothing leaks --------------------------------------------------------------------------------

  /** An id in a handle belongs to a request that is still at work and has no result yet. */
  ghost predicate Linked(connections: map<Owner, Connection>, requests: map<Id, Request>,
                         completers: map<nat, Completer>, log: seq<Event>) {
    && (forall c, id | c in connections && id in connections[c].handle.ids ::
          && id in requests && requests[id].owner == c
          && requests[id].phase in {Sending, Waiting, Purging, Dropping}
          && !WasDelivered(log, id))
    && (forall c, t | c in connections && t in completers && completers[t].Delivering? ::
          completers[t].id !in connections[c].handle.ids)
  }

  // ---- answers ---------------------------------------------------------------------------------------

  /** Some connection has sent this answer to the request. */
  ghost predicate WasAnswered(log: seq<Event>, id: Id, answer: Answer) { exists c :: Answered(c, id, answer) in log }

  ghost predicate Answers(requests: map<Id, Request>, completers: map<nat, Completer>, channels: map<Id, Answer>,
                          log: seq<Event>) {
    && (forall t | t in completers ::
          var k := completers[t];
          k.id in requests && WasAnswered(log, k.id, k.answer))
    && (forall id | id in channels :: id in requests && WasAnswered(log, id, channels[id]))
    && (forall id | id in requests && requests[id].phase == Acknowledged ::
          WasAnswered(log, id, Operation(true)))
  }

  /** The routing that a mutation's preparation chose. */
  function Chosen(request: Request): Routing
    requires request.mutation.Some?
  {
    Routed(request.stores, request.mutation.value, request.fromAdapter)
  }

  predicate RoutedOk(request: Request) {
    match request.mutation
    case None => request.phase != Phase.Direct && request.phase != Acknowledged && request.phase != Finished(true)
    case Some(_) =>
      && (request.phase == Phase.Direct ==> Chosen(request) == Routing.Direct)
      && (request.phase == Finished(true) ==> Chosen(request) != Refused)
      && (Chosen(request).Through? ==> Chosen(request).owner == request.owner)
      && (!request.phase.Finished? && request.phase != Phase.Direct ==> Chosen(request) == Through(request.owner))
  }

  /** The commit at `i` is allowed: no store matched, or an adapter was chosen and the request was
      acknowledged before. */
  ghost predicate Allowed(requests: map<Id, Request>, log: seq<Event>, i: nat)
    requires i < |log| && log[i].Applied?
  {
    && log[i].id in requests && requests[log[i].id].phase == Finished(true)
    && requests[log[i].id].mutation == Some(log[i].mutation)
    && (Chosen(requests[log[i].id]) == Routing.Direct
        || (Chosen(requests[log[i].id]) == Through(requests[log[i].id].owner)
            && WasAnswered(log[..i], log[i].id, Operation(true))))
  }

  ghost predicate Written(requests: map<Id, Request>, log: seq<Event>) {
    && (forall id | id in requests :: RoutedOk(requests[id]))
    && (forall i | 0 <= i < |log| && log[i].Applied? :: Allowed(requests, log, i))
  }

  ghost predicate WasApplied(log: seq<Event>, id: Id) {
    exists i | 0 <= i < |log| :: log[i].Applied? && log[i].id == id
  }

  /** No mutation is applied twice. */
  ghost predicate AppliedOnce(log: seq<Event>) {
    forall i, j | 0 <= i < j < |log| && log[i].Applied? && log[j].Applied? :: log[i].id != log[j].id
  }

  /** Everything but the mutexes. */
  ghost predicate Rest(s: State) {
    && Owned(s.connections, s.pending, s.requests)
    && Tickets(s.pending, s.requests, s.completers, s.log)
    && Linked(s.connections, s.requests, s.completers, s.log)
    && History(s.requests, s.completers, s.channels, s.log)
  }

  ghost predicate History(requests: map<Id, Request>, completers: map<nat, Completer>, channels: map<Id, Answer>,
                          log: seq<Event>) {
    && DeliveredOnce(log)
    && Channels(channels, log)
    && Answers(requests, completers, channels, log)
    && Written(requests, log)
    && AppliedOnce(log)
  }

  ghost predicate Inv(s: State) {
    Locks(s.connections, s.requests) && Rest(s)
  }

  ghost predicate InSomeHandle(connections: map<Owner, Connection>, id: Id) {
    exists c | c in connections :: id in connections[c].handle.ids
  }

  // ---- mutexes -------------------------------------------------------------------------------------

  predicate Mutexed(phase: Phase) { phase in {Locked, Inserted} }

  lemma LocksRequest(connections: map<Owner, Connection>, requests: map<Id, Request>, id: Id, r: Request)
    requires Locks(connections, requests)
    requires id in requests ==> requests[id].owner == r.owner && Mutexed(requests[id].phase) == Mutexed(r.phase)
    requires id !in requests ==> !Mutexed(r.phase)
    requires HasHandle(r.phase) ==> r.owner in connections
    ensures Locks(connections, requests[id := r])
  {
  }

  lemma LocksConnection(connections: map<Owner, Connection>, requests: map<Id, Request>, c: Owner, conn: Connection)
    requires Locks(connections, requests) && HandleOk(conn)
    requires conn.handle.lock == if c in connections then connections[c].handle.lock else None
    ensures Locks(connections[c := conn], requests)
  {
  }

  /** A request takes or leaves its owner's mutex. */
  lemma LocksBoth(connections: map<Owner, Connection>, requests: map<Id, Request>, id: Id, r: Request, conn: Connection)
    requires Locks(connections, requests) && HandleOk(conn)
    requires id in requests && requests[id].owner == r.owner && r.owner in connections
    requires connections[r.owner].handle.lock == (if Mutexed(requests[id].phase) then Some(id) else None)
    requires conn.handle.lock == (if Mutexed(r.phase) then Some(id) else None)
    ensures Locks(connections[r.owner := conn], requests[id := r])
  {
  }

  // ---- requests ------------------------------------------------------------------------------------

  /** A request that starts, or moves on without touching a table. */
  ghost predicate RequestMoves(s: State, id: Id, r: Request) {
    && RoutedOk(r)
    && (r.phase == Acknowledged ==> WasAnswered(s.log, id, Operation(true)))
    && (id in s.requests ==>
          && r == s.requests[id].(phase := r.phase) && s.requests[id].phase != Finished(true)
          && (WasSent(s.requests[id].phase) ==> WasSent(r.phase))
          && (id in s.pending ==> r.phase in {Inserted, Sending, Waiting, Purging})
          && (InSomeHandle(s.connections, id) ==> r.phase in {Sending, Waiting, Purging, Dropping}))
  }

  lemma RequestKeepsTables(s: State, id: Id, r: Request)
    requires Rest(s) && RequestMoves(s, id, r)
    ensures Owned(s.connections, s.pending, s.requests[id := r])
    ensures Linked(s.connections, s.requests[id := r], s.completers, s.log)
  {
  }

  lemma RequestKeepsTickets(s: State, id: Id, r: Request)
    requires Tickets(s.pending, s.requests, s.completers, s.log) && RequestMoves(s, id, r)
    ensures Tickets(s.pending, s.requests[id := r], s.completers, s.log)
  {
  }

  lemma RequestKeepsHistory(s: State, id: Id, r: Request)
    requires Answers(s.requests, s.completers, s.channels, s.log) && Written(s.requests, s.log)
    requires RequestMoves(s, id, r)
    ensures Answers(s.requests[id := r], s.completers, s.channels, s.log)
    ensures Written(s.requests[id := r], s.log)
  {
  }

  lemma RequestStep(s: State, id: Id, r: Request)
    requires Rest(s) && RequestMoves(s, id, r)
    ensures Rest(s.(requests := s.requests[id := r]))
  {
    RequestKeepsTables(s, id, r);
    RequestKeepsTickets(s, id, r);
    RequestKeepsHistory(s, id, r);
  }

  // ---- connections and pending results ---------------------------------------------------------------

  /** A handle may hold the id of a request of its own that is at work without a result. */
  ghost predicate MayHold(s: State, c: Owner, id: Id) {
    && id in s.requests && s.requests[id].owner == c
    && s.requests[id].phase in {Sending, Waiting, Purging, Dropping} && !WasDelivered(s.log, id)
    && forall t | t in s.completers && s.completers[t].Delivering? :: s.completers[t].id != id
  }

  /** A connection that starts, closes further, or gains or loses ids. */
  ghost predicate ConnectionMoves(s: State, c: Owner, conn: Connection) {
    && (forall id | id in conn.handle.ids ::
          (c in s.connections && id in s.connections[c].handle.ids) || MayHold(s, c, id))
    && (forall id | id in s.pending && s.pending[id] == c :: Accounted(conn, id))
  }

  lemma ConnectionStep(s: State, c: Owner, conn: Connection)
    requires Rest(s) && ConnectionMoves(s, c, conn)
    ensures Rest(WithConnection(s, c, conn))
  {
  }

  lemma ShrinkStep(s: State, gone: set<Id>)
    requires Rest(s)
    ensures Rest(s.(pending := s.pending - gone))
  {
  }

  lemma GrowStep(s: State, id: Id)
    requires Rest(s) && In(s, id, Inserted)
    requires s.requests[id].owner in s.connections && Accounted(s.connections[s.requests[id].owner], id)
    ensures Rest(s.(pending := s.pending[id := s.requests[id].owner]))
  {
  }

  // ---- completers ------------------------------------------------------------------------------------

  /** A completer that starts or moves on. */
  ghost predicate CompleterMoves(s: State, t: nat, k: Completer) {
    && k.id in s.requests && WasSent(s.requests[k.id].phase)
    && WasAnswered(s.log, k.id, k.answer)
    && (k.Claimed? || k.Unlinking? ==> k.owner == s.requests[k.id].owner)
    && (Claims(k) ==> k.id !in s.pending && !WasDelivered(s.log, k.id)
                      && forall u | u in s.completers && Claims(s.completers[u]) && s.completers[u].id == k.id ::
                           u == t)
    && (k.Delivering? ==> !InSomeHandle(s.connections, k.id))
  }

  lemma CompleterKeepsTickets(s: State, t: nat, k: Completer)
    requires Tickets(s.pending, s.requests, s.completers, s.log) && CompleterMoves(s, t, k)
    ensures Tickets(s.pending, s.requests, s.completers[t := k], s.log)
  {
  }

  lemma CompleterKeepsLinks(s: State, t: nat, k: Completer)
    requires Linked(s.connections, s.requests, s.completers, s.log) && CompleterMoves(s, t, k)
    ensures Linked(s.connections, s.requests, s.completers[t := k], s.log)
  {
  }

  lemma CompleterStep(s: State, t: nat, k: Completer)
    requires Rest(s) && CompleterMoves(s, t, k)
    ensures Rest(WithCompleter(s, t, k))
  {
    CompleterKeepsTickets(s, t, k);
    CompleterKeepsLinks(s, t, k);
  }

  lemma CompleterEnds(s: State, t: nat)
    requires Rest(s)
    ensures Rest(s.(completers := s.completers - {t}))
  {
  }

  // ---- the log -----------------------------------------------------------------------------------------

  lemma LogGrows(log: seq<Event>, e: Event)
    ensures forall id :: WasDelivered(log + [e], id) <==> WasDelivered(log, id) || (e.Delivered? && e.id == id)
    ensures forall f :: f in log + [e] <==> f in log || f == e
    ensures forall id, a :: WasAnswered(log, id, a) ==> WasAnswered(log + [e], id, a)
    ensures e.Answered? ==> WasAnswered(log + [e], e.id, e.answer)
    ensures forall i | 0 <= i < |log| :: (log + [e])[i] == log[i] && (log + [e])[..i] == log[..i]
    ensures (log + [e])[|log|] == e && (log + [e])[..|log|] == log
  {
    forall id, a | WasAnswered(log, id, a)
      ensures WasAnswered(log + [e], id, a)
    {
      var c :| Answered(c, id, a) in log;
      assert Answered(c, id, a) in log + [e];
    }
    assert e in log + [e];
    forall id
      ensures WasDelivered(log + [e], id) <==> WasDelivered(log, id) || (e.Delivered? && e.id == id)
    {
      if WasDelivered(log, id) {
        var a :| Delivered(id, a) in log;
        assert Delivered(id, a) in log + [e];
      }
      if e.Delivered? && e.id == id {
        assert Delivered(id, e.answer) in log + [e];
      }
    }
  }

  lemma WrittenGrows(requests: map<Id, Request>, log: seq<Event>, e: Event)
    requires Written(requests, log) && AppliedOnce(log)
    requires e.Applied? ==> Allowed(requests, log + [e], |log|) && !WasApplied(log, e.id)
    ensures Written(requests, log + [e]) && AppliedOnce(log + [e])
  {
    LogGrows(log, e);
    forall i | 0 <= i < |log| && log[i].Applied? ensures Allowed(requests, log + [e], i) {
      assert Allowed(requests, log, i);
    }
  }

  lemma LogStep(s: State, e: Event)
    requires Rest(s) && !e.Delivered?
    requires e.Applied? ==> Allowed(s.requests, s.log + [e], |s.log|) && !WasApplied(s.log, e.id)
    ensures Rest(Logged(s, e))
  {
    LogGrows(s.log, e);
    WrittenGrows(s.requests, s.log, e);
  }

  lemma DeliveredOnceGrows(log: seq<Event>, id: Id, answer: Answer)
    requires DeliveredOnce(log) && !WasDelivered(log, id)
    ensures DeliveredOnce(log + [Delivered(id, answer)])
  {
    forall i | 0 <= i < |log| && log[i].Delivered? ensures log[i].id != id {
      assert log[i] == Delivered(log[i].id, log[i].answer);
    }
  }

  lemma DeliveryKeepsTickets(s: State, id: Id, answer: Answer)
    requires Tickets(s.pending, s.requests, s.completers, s.log) && Unclaimed(s.pending, s.requests, id)
    requires forall t | t in s.completers && Claims(s.completers[t]) :: s.completers[t].id != id
    ensures Tickets(s.pending, s.requests, s.completers, s.log + [Delivered(id, answer)])
  {
    LogGrows(s.log, Delivered(id, answer));
  }

  lemma DeliveryKeepsLinks(s: State, id: Id, answer: Answer)
    requires Linked(s.connections, s.requests, s.completers, s.log) && !InSomeHandle(s.connections, id)
    ensures Linked(s.connections, s.requests, s.completers, s.log + [Delivered(id, answer)])
  {
    LogGrows(s.log, Delivered(id, answer));
  }

  lemma DeliveryKeepsAnswers(s: State, id: Id, answer: Answer)
    requires Answers(s.requests, s.completers, s.channels, s.log) && Channels(s.channels, s.log)
    requires id in s.requests && WasAnswered(s.log, id, answer)
    ensures Answers(s.requests, s.completers, s.channels[id := answer], s.log + [Delivered(id, answer)])
    ensures Channels(s.channels[id := answer], s.log + [Delivered(id, answer)])
  {
    LogGrows(s.log, Delivered(id, answer));
  }

  lemma DeliveryKeepsHistory(s: State, id: Id, answer: Answer)
    requires History(s.requests, s.completers, s.channels, s.log) && !WasDelivered(s.log, id)
    requires id in s.requests && WasAnswered(s.log, id, answer)
    ensures History(s.requests, s.completers, s.channels[id := answer], s.log + [Delivered(id, answer)])
  {
    DeliveryKeepsAnswers(s, id, answer);
    DeliveredOnceGrows(s.log, id, answer);
    WrittenGrows(s.requests, s.log, Delivered(id, answer));
  }

  lemma DeliverStep(s: State, id: Id, answer: Answer)
    requires Rest(s) && Unclaimed(s.pending, s.requests, id) && !WasDelivered(s.log, id)
    requires WasAnswered(s.log, id, answer)
    requires forall t | t in s.completers && Claims(s.completers[t]) :: s.completers[t].id != id
    requires !InSomeHandle(s.connections, id)
    ensures Rest(Logged(s.(channels := s.channels[id := answer]), Delivered(id, answer)))
  {
    DeliveryKeepsTickets(s, id, answer);
    DeliveryKeepsLinks(s, id, answer);
    DeliveryKeepsHistory(s, id, answer);
  }
}

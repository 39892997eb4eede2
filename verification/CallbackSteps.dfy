/** Every step of the callback protocol keeps its invariant. */
module CallbackSteps {
  import opened Wrappers
  import opened Mutations
  import opened CallbackProtocol
  import opened CallbackInvariants

  /** A request moves on and no table changes. */
  lemma Moves(s: State, id: Id, phase: Phase)
    requires Inv(s) && id in s.requests && !Mutexed(s.requests[id].phase) && !Mutexed(phase)
    requires HasHandle(phase) ==> s.requests[id].owner in s.connections
    requires RequestMoves(s, id, s.requests[id].(phase := phase))
    ensures Inv(At(s, id, phase))
  {
    var r := s.requests[id].(phase := phase);
    LocksRequest(s.connections, s.requests, id, r);
    RequestStep(s, id, r);
  }

  lemma PrepareStep(s: State, id: Id, mutation: Mutation, fromAdapter: bool)
    requires Inv(s) && id !in s.requests
    ensures Inv(Apply(s, Prepare(id, mutation, fromAdapter)))
  {
    var routing := Routed(s.stores, mutation, fromAdapter);
    var r := Request(OwnerOf(routing), Some(mutation), fromAdapter, s.stores, FirstPhase(routing));
    LocksRequest(s.connections, s.requests, id, r);
    RequestStep(s, id, r);
    assert Apply(s, Prepare(id, mutation, fromAdapter)) == s.(requests := s.requests[id := r]);
  }

  lemma AskStep(s: State, id: Id, c: Owner)
    requires Inv(s) && id !in s.requests
    ensures Inv(Apply(s, Ask(id, c)))
  {
    var r := Request(c, None, false, [], Looking);
    LocksRequest(s.connections, s.requests, id, r);
    RequestStep(s, id, r);
  }

  /** A request that is not registered is in no table. */
  lemma NotRegistered(s: State, id: Id)
    requires Rest(s) && id in s.requests
    requires s.requests[id].phase !in {Inserted, Sending, Waiting, Purging, Dropping}
    ensures id !in s.pending && !InSomeHandle(s.connections, id)
  {
  }

  lemma LockTaken(s: State, id: Id, c: Owner, h: Handle)
    requires Inv(s) && In(s, id, Registering) && s.requests[id].owner == c && id !in s.pending
    requires c in s.connections && s.connections[c].handle == h && h.lock.None? && !h.closed
    requires !InSomeHandle(s.connections, id)
    ensures Inv(WithHandle(At(s, id, Locked), c, h.(lock := Some(id))))
  {
    var r, conn := s.requests[id].(phase := Locked), s.connections[c].(handle := h.(lock := Some(id)));
    LocksBoth(s.connections, s.requests, id, r, conn);
    RequestStep(s, id, r);
    LockedConnection(At(s, id, Locked), c, conn);
    ConnectionStep(At(s, id, Locked), c, conn);
    assert WithHandle(At(s, id, Locked), c, conn.handle) == WithConnection(At(s, id, Locked), c, conn);
  }

  lemma LockedConnection(s: State, c: Owner, conn: Connection)
    requires Rest(s) && c in s.connections && s.connections[c].handle.lock.None?
    requires conn.handle.ids == s.connections[c].handle.ids && conn.closing == s.connections[c].closing
    ensures ConnectionMoves(s, c, conn)
  {
  }

  lemma TakeLockStep(s: State, id: Id)
    requires Inv(s) && Enabled(s, TakeLock(id))
    ensures Inv(Apply(s, TakeLock(id)))
  {
    NotRegistered(s, id);
    var c := s.requests[id].owner;
    if s.connections[c].handle.closed {
      Moves(s, id, Finished(false));
    } else {
      LockTaken(s, id, c, s.connections[c].handle);
    }
  }

  lemma InsertStep(s: State, id: Id)
    requires Inv(s) && Enabled(s, Insert(id))
    ensures Inv(Apply(s, Insert(id)))
  {
    NotRegistered(s, id);
    var r := s.requests[id].(phase := Inserted);
    LocksRequest(s.connections, s.requests, id, r);
    RequestStep(s, id, r);
    GrowStep(At(s, id, Inserted), id);
  }

  lemma NeverAnswered(s: State, id: Id)
    requires Rest(s) && In(s, id, Inserted)
    ensures !WasDelivered(s.log, id) && !InSomeHandle(s.connections, id)
    ensures forall t | t in s.completers :: s.completers[t].id != id
  {
  }

  lemma LinkStep(s: State, id: Id, c: Owner, h: Handle)
    requires Inv(s) && In(s, id, Inserted) && s.requests[id].owner == c
    requires c in s.connections && s.connections[c].handle == h
    ensures Inv(WithHandle(At(s, id, Sending), c, h.(ids := h.ids + {id}, lock := None)))
  {
    var r := s.requests[id].(phase := Sending);
    var conn := s.connections[c].(handle := h.(ids := h.ids + {id}, lock := None));
    LocksBoth(s.connections, s.requests, id, r, conn);
    NeverAnswered(s, id);
    RequestStep(s, id, r);
    LinkedConnection(At(s, id, Sending), id, c, conn);
    ConnectionStep(At(s, id, Sending), c, conn);
    assert WithHandle(At(s, id, Sending), c, conn.handle) == WithConnection(At(s, id, Sending), c, conn);
  }

  lemma LinkMove(s: State, id: Id)
    requires Inv(s) && Enabled(s, Link(id))
    ensures Inv(Apply(s, Link(id)))
  {
    LinkStep(s, id, s.requests[id].owner, s.connections[s.requests[id].owner].handle);
  }

  lemma LinkedConnection(s: State, id: Id, c: Owner, conn: Connection)
    requires Rest(s) && MayHold(s, c, id) && c in s.connections
    requires conn.handle.ids == s.connections[c].handle.ids + {id} && conn.closing == s.connections[c].closing
    requires s.connections[c].handle.lock == Some(id)
    ensures ConnectionMoves(s, c, conn)
  {
  }

  /** A result in a channel is no longer pending, and some connection sent it. */
  lemma ReceivedIsSettled(s: State, id: Id)
    requires Rest(s) && id in s.channels
    ensures id in s.requests && id !in s.pending && !InSomeHandle(s.connections, id)
    ensures WasAnswered(s.log, id, s.channels[id])
  {
    assert WasDelivered(s.log, id);
  }

  lemma ReceiveStep(s: State, id: Id)
    requires Inv(s) && Enabled(s, Receive(id))
    ensures Inv(Apply(s, Receive(id)))
  {
    ReceivedIsSettled(s, id);
    assert RoutedOk(s.requests[id]);
    Moves(s, id, Judged(s.requests[id], s.channels[id]));
    assert Apply(s, Receive(id)) == At(s, id, Judged(s.requests[id], s.channels[id]));
  }

  lemma PurgeStep(s: State, id: Id)
    requires Inv(s) && Enabled(s, Purge(id))
    ensures Inv(Apply(s, Purge(id)))
  {
    ShrinkStep(s, {id});
    Moves(s.(pending := s.pending - {id}), id, Dropping);
    assert Apply(s, Purge(id)) == At(s.(pending := s.pending - {id}), id, Dropping);
  }

  /** An id leaves a handle once its result is no longer pending. */
  lemma WithoutStep(s: State, c: Owner, id: Id)
    requires Inv(s) && c in s.connections && id !in s.pending
    ensures Inv(Without(s, c, id))
  {
    var h := s.connections[c].handle;
    var conn := s.connections[c].(handle := h.(ids := h.ids - {id}));
    LocksConnection(s.connections, s.requests, c, conn);
    ConnectionStep(s, c, conn);
  }

  /** A request that has left the tables finishes. */
  lemma FinishStep(s: State, id: Id)
    requires Inv(s) && In(s, id, Dropping) && id !in s.pending && !InSomeHandle(s.connections, id)
    ensures Inv(At(s, id, Finished(false)))
  {
    assert RoutedOk(s.requests[id]);
    Moves(s, id, Finished(false));
  }

  lemma DroppingIsNotPending(s: State, id: Id)
    requires Rest(s) && In(s, id, Dropping)
    ensures id !in s.pending
  {
  }

  lemma DropStep(s: State, id: Id)
    requires Inv(s) && Enabled(s, Drop(id))
    ensures Inv(Apply(s, Drop(id)))
  {
    var c := s.requests[id].owner;
    DroppingIsNotPending(s, id);
    WithoutStep(s, c, id);
    Unlinked(s, c, id);
    FinishStep(Without(s, c, id), id);
  }

  /** An id is in no handle but its owner's. */
  lemma Unlinked(s: State, c: Owner, id: Id)
    requires Rest(s) && id in s.requests && s.requests[id].owner == c && c in s.connections
    ensures !InSomeHandle(Without(s, c, id).connections, id)
  {
  }

  lemma CommitStep(s: State, id: Id)
    requires Inv(s) && Enabled(s, Commit(id))
    ensures Inv(Apply(s, Commit(id)))
  {
    NotRegistered(s, id);
    assert RoutedOk(s.requests[id]);
    match Committed(s.cache, s.requests[id].mutation.value)
    case None => Moves(s, id, Finished(false));
    case Some(cache) =>
      CommitLogged(s, id);
  }

  lemma NotApplied(requests: map<Id, Request>, log: seq<Event>, id: Id)
    requires Written(requests, log) && id in requests && requests[id].phase != Finished(true)
    ensures !WasApplied(log, id)
  {
    forall i | 0 <= i < |log| && log[i].Applied? ensures log[i].id != id {
      assert Allowed(requests, log, i);
    }
  }

  lemma CommitLogged(s: State, id: Id)
    requires Inv(s) && Enabled(s, Commit(id)) && id !in s.pending && !InSomeHandle(s.connections, id)
    ensures Inv(Logged(At(s, id, Finished(true)), Applied(id, s.requests[id].mutation.value)))
  {
    NotApplied(s.requests, s.log, id);
    CommitAllowed(s, id);
    Moves(s, id, Finished(true));
    LogStep(At(s, id, Finished(true)), Applied(id, s.requests[id].mutation.value));
  }

  lemma CommitAllowed(s: State, id: Id)
    requires Inv(s) && Enabled(s, Commit(id))
    ensures RoutedOk(s.requests[id].(phase := Finished(true)))
    ensures Allowed(At(s, id, Finished(true)).requests, s.log + [Applied(id, s.requests[id].mutation.value)], |s.log|)
  {
    assert RoutedOk(s.requests[id]);
    LogGrows(s.log, Applied(id, s.requests[id].mutation.value));
  }

  lemma FrameStep(s: State, t: nat, c: Owner, id: Id, answer: Answer)
    requires Inv(s) && Enabled(s, Frame(t, c, id, answer))
    ensures Inv(Apply(s, Frame(t, c, id, answer)))
  {
    var e := Answered(c, id, answer);
    LogStep(s, e);
    LogGrows(s.log, e);
    CompleterStep(Logged(s, e), t, Expecting(id, answer));
    assert Apply(s, Frame(t, c, id, answer)) == WithCompleter(Logged(s, e), t, Expecting(id, answer));
  }

  /** A pending result is neither claimed nor delivered. */
  lemma PendingIsUnclaimed(s: State, t: nat)
    requires Rest(s) && t in s.completers && s.completers[t].id in s.pending
    ensures CompleterMoves(s.(pending := s.pending - {s.completers[t].id}), t,
                           Claimed(s.completers[t].id, s.pending[s.completers[t].id], s.completers[t].answer))
  {
    assert !WasDelivered(s.log, s.completers[t].id);
  }

  lemma ClaimStep(s: State, t: nat)
    requires Inv(s) && Enabled(s, Claim(t))
    ensures Inv(Apply(s, Claim(t)))
  {
    var k := s.completers[t];
    if k.id in s.pending {
      PendingClaimed(s, t, k);
      var taken := s.(pending := s.pending - {k.id});
      assert Apply(s, Claim(t)) == WithCompleter(taken, t, Claimed(k.id, s.pending[k.id], k.answer));
    } else {
      CompleterEnds(s, t);
      assert Apply(s, Claim(t)) == s.(completers := s.completers - {t});
    }
  }

  lemma PendingClaimed(s: State, t: nat, k: Completer)
    requires Inv(s) && t in s.completers && s.completers[t] == k && k.Expecting? && k.id in s.pending
    ensures Inv(WithCompleter(s.(pending := s.pending - {k.id}), t, Claimed(k.id, s.pending[k.id], k.answer)))
  {
    PendingIsUnclaimed(s, t);
    ShrinkStep(s, {k.id});
    CompleterStep(s.(pending := s.pending - {k.id}), t, Claimed(k.id, s.pending[k.id], k.answer));
  }

  lemma FindHandleStep(s: State, t: nat)
    requires Inv(s) && Enabled(s, FindHandle(t))
    ensures Inv(Apply(s, FindHandle(t)))
  {
    var k := s.completers[t];
    if k.owner in s.connections && s.connections[k.owner].listed {
      CompleterStep(s, t, Unlinking(k.id, k.owner, k.answer));
      assert Apply(s, FindHandle(t)) == WithCompleter(s, t, Unlinking(k.id, k.owner, k.answer));
    } else {
      assert !InSomeHandle(s.connections, k.id);
      CompleterStep(s, t, Delivering(k.id, k.answer));
      assert Apply(s, FindHandle(t)) == WithCompleter(s, t, Delivering(k.id, k.answer));
    }
  }

  lemma UnlinkStep(s: State, t: nat)
    requires Inv(s) && Enabled(s, Unlink(t))
    ensures Inv(Apply(s, Unlink(t)))
  {
    var k := s.completers[t];
    WithoutStep(s, k.owner, k.id);
    var w := Without(s, k.owner, k.id);
    Unlinked(s, k.owner, k.id);
    CompleterStep(w, t, Delivering(k.id, k.answer));
    assert Apply(s, Unlink(t)) == WithCompleter(w, t, Delivering(k.id, k.answer));
  }

  /** What is being delivered is settled and answered. */
  lemma DeliveringIsSettled(s: State, t: nat)
    requires Rest(s) && t in s.completers && s.completers[t].Delivering?
    ensures var k := s.completers[t];
            && Unclaimed(s.pending, s.requests, k.id) && !WasDelivered(s.log, k.id)
            && WasAnswered(s.log, k.id, k.answer)
            && !InSomeHandle(s.connections, k.id)
            && forall u | u in s.completers && u != t && Claims(s.completers[u]) :: s.completers[u].id != k.id
  {
  }

  lemma DeliverCompletes(s: State, t: nat)
    requires Inv(s) && Enabled(s, Deliver(t))
    ensures Inv(Apply(s, Deliver(t)))
  {
    var k := s.completers[t];
    Delivers(s, t, k);
    var ended := s.(completers := s.completers - {t});
    assert Apply(s, Deliver(t))
        == Logged(ended.(channels := ended.channels[k.id := k.answer]), Delivered(k.id, k.answer));
  }

  lemma Delivers(s: State, t: nat, k: Completer)
    requires Inv(s) && t in s.completers && s.completers[t] == k && k.Delivering?
    ensures var ended := s.(completers := s.completers - {t});
            Inv(Logged(ended.(channels := ended.channels[k.id := k.answer]), Delivered(k.id, k.answer)))
  {
    DeliveringIsSettled(s, t);
    CompleterEnds(s, t);
    DeliverStep(s.(completers := s.completers - {t}), k.id, k.answer);
  }

  lemma ConnectStep(s: State, c: Owner)
    requires Inv(s) && c !in s.connections
    ensures Inv(Apply(s, Connect(c)))
  {
    var conn := Connection(Handle({}, false, None), true, Open);
    LocksConnection(s.connections, s.requests, c, conn);
    ConnectionStep(s, c, conn);
  }

  lemma TakeIdsStep(s: State, c: Owner)
    requires Inv(s) && Enabled(s, TakeIds(c))
    ensures Inv(Apply(s, TakeIds(c)))
  {
    var h := s.connections[c].handle;
    Rearranged(s, c, Connection(h.(ids := {}, closed := true), true, Taken(h.ids)));
  }

  /** A connection that loses no id and takes none over, under the same lock. */
  lemma Rearranged(s: State, c: Owner, conn: Connection)
    requires Inv(s) && c in s.connections && conn.handle.lock == s.connections[c].handle.lock
    requires HandleOk(conn)
    requires conn.handle.ids <= s.connections[c].handle.ids
    requires forall id | Accounted(s.connections[c], id) :: Accounted(conn, id)
    ensures Inv(WithConnection(s, c, conn))
  {
    LocksConnection(s.connections, s.requests, c, conn);
    ConnectionStep(s, c, conn);
  }

  lemma UnlistStep(s: State, c: Owner)
    requires Inv(s) && Enabled(s, Unlist(c))
    ensures Inv(Apply(s, Unlist(c)))
  {
    Rearranged(s, c, s.connections[c].(listed := false, closing := Unlisted(s.connections[c].closing.ids)));
  }

  lemma PurgeIdsStep(s: State, c: Owner)
    requires Inv(s) && Enabled(s, PurgeIds(c))
    ensures Inv(Apply(s, PurgeIds(c)))
  {
    IdsPurged(s, c, s.connections[c].closing.ids);
  }

  lemma IdsPurged(s: State, c: Owner, ids: set<Id>)
    requires Inv(s) && c in s.connections && s.connections[c].closing == Unlisted(ids)
    ensures Inv(WithConnection(s.(pending := s.pending - ids), c, s.connections[c].(closing := Gone)))
  {
    ShrinkStep(s, ids);
    var conn := s.connections[c].(closing := Gone);
    LocksConnection(s.connections, s.requests, c, conn);
    ConnectionStep(s.(pending := s.pending - ids), c, conn);
  }

  lemma LookUpStep(s: State, id: Id)
    requires Inv(s) && Enabled(s, LookUp(id))
    ensures Inv(Apply(s, LookUp(id)))
  {
    NotRegistered(s, id);
    var c := s.requests[id].owner;
    Moves(s, id, if c in s.connections && s.connections[c].listed then Registering else Finished(false));
  }

  lemma GiveUpStep(s: State, id: Id)
    requires Inv(s) && Enabled(s, GiveUp(id))
    ensures Inv(Apply(s, GiveUp(id)))
  {
    assert RoutedOk(s.requests[id]);
    Moves(s, id, Purging);
  }

  lemma SendStep(s: State, id: Id, sent: bool)
    requires Inv(s) && Enabled(s, Send(id, sent))
    ensures Inv(Apply(s, Send(id, sent)))
  {
    Moves(s, id, if sent then Waiting else Purging);
  }

  lemma RegisterSteps(s: State, m: Move)
    requires Inv(s) && Enabled(s, m) && Registers(m)
    ensures Inv(Apply(s, m))
  {
    match m
    case Prepare(id, mutation, fromAdapter) => PrepareStep(s, id, mutation, fromAdapter);
    case Ask(id, c) => AskStep(s, id, c);
    case LookUp(id) => LookUpStep(s, id);
    case TakeLock(id) => TakeLockStep(s, id);
    case Insert(id) => InsertStep(s, id);
    case Link(id) => LinkMove(s, id);
  }

  lemma ConcludeSteps(s: State, m: Move)
    requires Inv(s) && Enabled(s, m) && Concludes(m)
    ensures Inv(Apply(s, m))
  {
    match m
    case Send(id, sent) => SendStep(s, id, sent);
    case Receive(id) => ReceiveStep(s, id);
    case GiveUp(id) => GiveUpStep(s, id);
    case Purge(id) => PurgeStep(s, id);
    case Drop(id) => DropStep(s, id);
    case Commit(id) => CommitStep(s, id);
  }

  lemma CompleteSteps(s: State, m: Move)
    requires Inv(s) && Enabled(s, m) && Completes(m)
    ensures Inv(Apply(s, m))
  {
    match m
    case Frame(t, c, id, answer) => FrameStep(s, t, c, id, answer);
    case Claim(t) => ClaimStep(s, t);
    case FindHandle(t) => FindHandleStep(s, t);
    case Unlink(t) => UnlinkStep(s, t);
    case Deliver(t) => DeliverCompletes(s, t);
  }

  lemma OtherSteps(s: State, m: Move)
    requires Inv(s) && Enabled(s, m) && !Registers(m) && !Concludes(m) && !Completes(m)
    ensures Inv(Apply(s, m))
  {
    match m
    case Connect(c) => ConnectStep(s, c);
    case TakeIds(c) => TakeIdsStep(s, c);
    case Unlist(c) => UnlistStep(s, c);
    case PurgeIds(c) => PurgeIdsStep(s, c);
    case ChangeStores(_) =>
    case Expire(route) => LogStep(s, Expired(route));
  }

  lemma InvStep(s: State, m: Move)
    requires Inv(s) && Enabled(s, m)
    ensures Inv(Apply(s, m))
  {
    if Registers(m) {
      RegisterSteps(s, m);
    } else if Concludes(m) {
      ConcludeSteps(s, m);
    } else if Completes(m) {
      CompleteSteps(s, m);
    } else {
      OtherSteps(s, m);
    }
  }

  lemma {:induction false} InvRun(s: State, moves: seq<Move>, t: State)
    requires Inv(s) && Runs(s, moves, t)
    ensures Inv(t)
    decreases |moves|
  {
    if moves != [] {
      InvStep(s, moves[0]);
      InvRun(Apply(s, moves[0]), moves[1..], t);
    }
  }
}

/** Callback correlation and write-through ordering over whole runs. */
module CallbackTheorems {
  import opened Wrappers
  import opened Registry
  import opened Mutations
  import opened MutationRouting
  import opened CallbackProtocol
  import opened CallbackInvariants
  import opened CallbackSteps

  ghost predicate Reachable(s: State) { exists moves :: Runs(INITIAL, moves, s) }

  lemma ReachableInv(s: State)
    requires Reachable(s)
    ensures Inv(s)
  {
    var moves :| Runs(INITIAL, moves, s);
    InvRun(INITIAL, moves, s);
  }

  // ---- correlation --------------------------------------------------------------------------------

  /** Every pending result has a live request, and its id is in its owner's pending set, being
      purged, or being registered under the owner's mutex. */
  lemma PendingIsAccounted(s: State, id: Id)
    requires Reachable(s) && id in s.pending
    ensures id in s.requests && s.requests[id].owner == s.pending[id] && !s.requests[id].phase.Finished?
    ensures s.pending[id] in s.connections && Accounted(s.connections[s.pending[id]], id)
  {
    ReachableInv(s);
  }

  ghost predicate IsGone(s: State, c: Owner) { c in s.connections && s.connections[c].closing.Gone? }

  lemma GoneHasNoResults(s: State, c: Owner)
    requires Inv(s) && IsGone(s, c)
    ensures forall id | id in s.pending :: s.pending[id] != c
    ensures s.connections[c].handle.ids == {} && !s.connections[c].listed
  {
    forall id | id in s.pending ensures s.pending[id] != c {
      assert HandleOk(s.connections[c]);
    }
  }

  lemma GoneStays(s: State, m: Move, c: Owner)
    requires IsGone(s, c) && Enabled(s, m)
    ensures IsGone(Apply(s, m), c)
  {
    if Registers(m) {
      RegisteringKeepsGone(s, m, c);
    } else if Concludes(m) {
      ConcludingKeepsGone(s, m, c);
    } else if Completes(m) {
      CompletingKeepsGone(s, m, c);
    }
  }

  lemma RegisteringKeepsGone(s: State, m: Move, c: Owner)
    requires IsGone(s, c) && Registers(m) && MayRegister(s, m)
    ensures IsGone(Register(s, m), c)
  {
  }

  lemma ConcludingKeepsGone(s: State, m: Move, c: Owner)
    requires IsGone(s, c) && Concludes(m) && MayConclude(s, m)
    ensures IsGone(Conclude(s, m), c)
  {
  }

  lemma CompletingKeepsGone(s: State, m: Move, c: Owner)
    requires IsGone(s, c) && Completes(m) && MayComplete(s, m)
    ensures IsGone(Complete(s, m), c)
  {
  }

  /** After `remove_connection` has returned, no result of that owner exists, and no later step
      registers one. */
  lemma {:induction false} RemovedOwnerStaysEmpty(s: State, moves: seq<Move>, t: State, c: Owner)
    requires Inv(s) && IsGone(s, c) && Runs(s, moves, t)
    ensures IsGone(t, c) && forall id | id in t.pending :: t.pending[id] != c
    decreases |moves|
  {
    if moves == [] {
      GoneHasNoResults(s, c);
    } else {
      GoneStays(s, moves[0], c);
      InvStep(s, moves[0]);
      RemovedOwnerStaysEmpty(Apply(s, moves[0]), moves[1..], t, c);
    }
  }

  /** No request id delivers two results. */
  lemma AtMostOneDelivery(s: State, i: nat, j: nat)
    requires Reachable(s) && i < j < |s.log| && s.log[i].Delivered? && s.log[j].Delivered?
    ensures s.log[i].id != s.log[j].id
  {
    ReachableInv(s);
  }

  lemma LinkedIsAtWork(s: State, c: Owner, id: Id)
    requires Rest(s) && c in s.connections
    ensures id in s.connections[c].handle.ids ==> id in s.requests && !s.requests[id].phase.Finished?
  {
  }

  /** When every request has finished, no table holds anything. */
  lemma NothingLeaks(s: State)
    requires Reachable(s) && forall id | id in s.requests :: s.requests[id].phase.Finished?
    ensures s.pending == map[] && forall c | c in s.connections :: s.connections[c].handle.ids == {}
  {
    ReachableInv(s);
    assert forall id :: id !in s.pending;
    forall c | c in s.connections
      ensures s.connections[c].handle.ids == {}
    {
      var ids := s.connections[c].handle.ids;
      forall id ensures id !in ids {
        LinkedIsAtWork(s, c, id);
      }
    }
  }

  // ---- write-through ------------------------------------------------------------------------------

  /** A mutation that no adapter sent is applied only when no store matched at its preparation, or
      an adapter was chosen and a connection acknowledged that same request before; and it is
      applied once. */
  lemma CommitsAreAcknowledged(s: State, i: nat)
    requires Reachable(s) && i < |s.log| && s.log[i].Applied?
    ensures s.log[i].id in s.requests
    ensures var r := s.requests[s.log[i].id];
            && r.mutation == Some(s.log[i].mutation) && r.phase == Finished(true)
            && (!r.fromAdapter ==>
                  var routing := Routed(r.stores, s.log[i].mutation, false);
                  || routing == Routing.Direct
                  || (routing == Through(r.owner) && WasAnswered(s.log[..i], s.log[i].id, Operation(true))))
    ensures forall j | 0 <= j < |s.log| && s.log[j].Applied? && s.log[j].id == s.log[i].id :: j == i
  {
    ReachableInv(s);
    assert Allowed(s.requests, s.log, i);
    assert RoutedOk(s.requests[s.log[i].id]);
  }

  /** Every answer to the request came from the connection that it was sent to. The server does not
      check that; it relies on identifiers that no other connection can know. */
  ghost predicate OnlyOwnerAnswers(s: State, id: Id)
    requires id in s.requests
  {
    forall i | 0 <= i < |s.log| && s.log[i].Answered? && s.log[i].id == id ::
      s.log[i].connection == s.requests[id].owner
  }

  /** If only its owner answered the request, it is the chosen adapter that acknowledged. */
  lemma ChosenAdapterAcknowledged(s: State, i: nat)
    requires Reachable(s) && i < |s.log| && s.log[i].Applied?
    requires s.log[i].id in s.requests && !s.requests[s.log[i].id].fromAdapter && OnlyOwnerAnswers(s, s.log[i].id)
    ensures var routing := Routed(s.requests[s.log[i].id].stores, s.log[i].mutation, false);
            || routing == Routing.Direct
            || (routing.Through? && Answered(routing.owner, s.log[i].id, Operation(true)) in s.log[..i])
  {
    CommitsAreAcknowledged(s, i);
    var id := s.log[i].id;
    if Routed(s.requests[id].stores, s.log[i].mutation, false) != Routing.Direct {
      var c :| Answered(c, id, Operation(true)) in s.log[..i];
      var j :| 0 <= j < i && s.log[..i][j] == Answered(c, id, Operation(true));
      assert s.log[j] == Answered(c, id, Operation(true));
    }
  }

  /** A mutation that no adapter sent and that concerns a registration is applied only after it was
      acknowledged, by the newest such registration's owner if nobody else answered. */
  lemma ConcernedIsWrittenThrough(s: State, i: nat, newest: int)
    requires Reachable(s) && i < |s.log| && s.log[i].Applied? && s.log[i].id in s.requests
    requires !s.requests[s.log[i].id].fromAdapter
    requires var stores := s.requests[s.log[i].id].stores;
             && 0 <= newest < |stores| && Concerns(stores[newest], s.log[i].mutation)
             && forall j | newest < j < |stores| :: !Concerns(stores[j], s.log[i].mutation)
    ensures WasAnswered(s.log[..i], s.log[i].id, Operation(true))
    ensures OnlyOwnerAnswers(s, s.log[i].id) ==>
              Answered(s.requests[s.log[i].id].stores[newest].owner, s.log[i].id, Operation(true)) in s.log[..i]
  {
    CommitsAreAcknowledged(s, i);
    if OnlyOwnerAnswers(s, s.log[i].id) { ChosenAdapterAcknowledged(s, i); }
    var k := RoutedToNewest(s.requests[s.log[i].id].stores, s.log[i].mutation);
    assert k == newest;
  }

  /** A batch that concerns a registration only in part is never applied. */
  lemma PartlyConcernedIsRefused(s: State, i: nat, j: nat)
    requires Reachable(s) && i < |s.log| && s.log[i].Applied? && s.log[i].id in s.requests
    requires !s.requests[s.log[i].id].fromAdapter
    requires j < |s.requests[s.log[i].id].stores|
    requires ConcernsPart(s.requests[s.log[i].id].stores[j], s.log[i].mutation)
    ensures exists k | 0 <= k < |s.requests[s.log[i].id].stores| ::
              Concerns(s.requests[s.log[i].id].stores[k], s.log[i].mutation)
  {
    CommitsAreAcknowledged(s, i);
    var k := RoutedToNewest(s.requests[s.log[i].id].stores, s.log[i].mutation);
    assert k >= 0;
  }

  /** A single Set of a literal key: the newest registration that covers the route decides. */
  lemma SetIsWrittenThrough(s: State, i: nat, newest: int)
    requires Reachable(s) && i < |s.log| && s.log[i].Applied? && s.log[i].id in s.requests
    requires s.log[i].mutation.Set? && IsLiteralText(s.log[i].mutation.key) && !s.requests[s.log[i].id].fromAdapter
    requires var stores := s.requests[s.log[i].id].stores;
             var set_ := s.log[i].mutation;
             && 0 <= newest < |stores| && CoversRoute(stores[newest], set_.namespace, set_.key)
             && forall j | newest < j < |stores| :: !CoversRoute(stores[j], set_.namespace, set_.key)
    ensures WasAnswered(s.log[..i], s.log[i].id, Operation(true))
    ensures OnlyOwnerAnswers(s, s.log[i].id) ==>
              Answered(s.requests[s.log[i].id].stores[newest].owner, s.log[i].id, Operation(true)) in s.log[..i]
  {
    CommitsAreAcknowledged(s, i);
    if OnlyOwnerAnswers(s, s.log[i].id) { ChosenAdapterAcknowledged(s, i); }
    var stores := s.requests[s.log[i].id].stores;
    var k := NewestMatchingStoreWins(stores, s.log[i].mutation.namespace, s.log[i].mutation.key);
    assert k == newest;
  }

  lemma FinishedStays(s: State, m: Move, id: Id)
    requires Enabled(s, m) && In(s, id, Finished(false))
    ensures In(Apply(s, m), id, Finished(false))
  {
    if Registers(m) {
      RegisteringKeepsOthers(s, m, id);
    } else if Concludes(m) {
      ConcludingKeepsOthers(s, m, id);
    }
  }

  lemma RegisteringKeepsOthers(s: State, m: Move, id: Id)
    requires Registers(m) && MayRegister(s, m) && In(s, id, Finished(false))
    ensures In(Register(s, m), id, Finished(false))
  {
  }

  lemma ConcludingKeepsOthers(s: State, m: Move, id: Id)
    requires Concludes(m) && MayConclude(s, m) && In(s, id, Finished(false))
    ensures In(Conclude(s, m), id, Finished(false))
  {
  }

  /** A request that failed, whatever the reason, never changes the cache afterwards. */
  lemma {:induction false} FailedNeverApplies(s: State, moves: seq<Move>, t: State, id: Id)
    requires Inv(s) && In(s, id, Finished(false)) && Runs(s, moves, t)
    ensures In(t, id, Finished(false)) && !WasApplied(t.log, id)
    decreases |moves|
  {
    if moves == [] {
      NotApplied(s.requests, s.log, id);
    } else {
      FinishedStays(s, moves[0], id);
      InvStep(s, moves[0]);
      FailedNeverApplies(Apply(s, moves[0]), moves[1..], t, id);
    }
  }

  // ---- the cache is the log -------------------------------------------------------------------------

  /** The cache that a log describes: its commits and expiries in order. */
  function Replay(log: seq<Event>): Option<Cache> {
    if log == [] then Some(map[]) else Replayed(Replay(log[..|log| - 1]), log[|log| - 1])
  }

  /** The cache that one more event makes. */
  function Replayed(before: Option<Cache>, e: Event): Option<Cache> {
    match e
    case Applied(_, mutation) => if before.Some? then Committed(before.value, mutation) else None
    case Expired(route) => if before.Some? then Some(before.value - {route}) else None
    case _ => before
  }

  lemma ReplayAppend(log: seq<Event>, e: Event)
    ensures Replay(log + [e]) == Replayed(Replay(log), e)
  {
    assert (log + [e])[..|log|] == log;
  }

  lemma CommitReplays(s: State, id: Id)
    requires MayConclude(s, Commit(id)) && Replay(s.log) == Some(s.cache)
    ensures Replay(Conclude(s, Commit(id)).log) == Some(Conclude(s, Commit(id)).cache)
  {
    ReplayAppend(s.log, Applied(id, s.requests[id].mutation.value));
  }

  lemma CompletingReplays(s: State, m: Move)
    requires Completes(m) && MayComplete(s, m) && Replay(s.log) == Some(s.cache)
    ensures Replay(Complete(s, m).log) == Some(Complete(s, m).cache)
  {
    if m.Frame? {
      ReplayAppend(s.log, Answered(m.c, m.id, m.answer));
    } else if m.Deliver? {
      ReplayAppend(s.log, Delivered(s.completers[m.t].id, s.completers[m.t].answer));
    }
  }

  lemma ReplayStep(s: State, m: Move)
    requires Enabled(s, m) && Replay(s.log) == Some(s.cache)
    ensures Replay(Apply(s, m).log) == Some(Apply(s, m).cache)
  {
    if m.Commit? {
      CommitReplays(s, m.id);
    } else if Completes(m) {
      CompletingReplays(s, m);
    } else if m.Expire? {
      ReplayAppend(s.log, Expired(m.route));
    } else {
      LogStays(s, m);
    }
  }

  lemma LogStays(s: State, m: Move)
    requires Enabled(s, m) && !Completes(m) && !m.Commit? && !m.Expire?
    ensures Apply(s, m).log == s.log && Apply(s, m).cache == s.cache
  {
    if Registers(m) {
      RegisteringKeepsLog(s, m);
    } else if Concludes(m) {
      ConcludingKeepsLog(s, m);
    }
  }

  lemma RegisteringKeepsLog(s: State, m: Move)
    requires Registers(m) && MayRegister(s, m)
    ensures Register(s, m).log == s.log && Register(s, m).cache == s.cache
  {
  }

  lemma ConcludingKeepsLog(s: State, m: Move)
    requires Concludes(m) && MayConclude(s, m) && !m.Commit?
    ensures Conclude(s, m).log == s.log && Conclude(s, m).cache == s.cache
  {
  }

  /** In every run the cache is exactly what its commits, each of them allowed, and the expiries
      make of an empty cache. */
  lemma {:induction false} CacheIsReplay(s: State, moves: seq<Move>, t: State)
    requires Runs(s, moves, t) && Replay(s.log) == Some(s.cache)
    ensures Replay(t.log) == Some(t.cache)
    decreases |moves|
  {
    if moves != [] {
      ReplayStep(s, moves[0]);
      CacheIsReplay(Apply(s, moves[0]), moves[1..], t);
    }
  }

  lemma ReachableCacheIsReplay(s: State)
    requires Reachable(s)
    ensures Replay(s.log) == Some(s.cache)
  {
    var moves :| Runs(INITIAL, moves, s);
    CacheIsReplay(INITIAL, moves, s);
  }
}

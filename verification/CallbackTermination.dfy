/** Without new requests, frames or closings, every run of the callback protocol ends, and it ends
    with every request finished and every table empty. */
module CallbackTermination {
  import opened Sums
  import opened Mutations
  import opened CallbackProtocol
  import opened CallbackInvariants
  import opened CallbackSteps
  import opened CallbackTheorems

  // ---- how much is left to do -------------------------------------------------------------------------

  function PhaseRank(phase: Phase): nat {
    match phase
    case Looking => 8
    case Registering => 7
    case Locked => 6
    case Inserted => 5
    case Sending => 4
    case Waiting => 3
    case Purging => 2
    case Dropping => 1
    case Direct => 1
    case Acknowledged => 1
    case Finished(_) => 0
  }

  function CompleterRank(k: Completer): nat {
    match k
    case Expecting(_, _) => 4
    case Claimed(_, _, _) => 3
    case Unlinking(_, _, _) => 2
    case Delivering(_, _) => 1
  }

  function ClosingRank(closing: Closing): nat {
    match closing
    case Taken(_) => 2
    case Unlisted(_) => 1
    case _ => 0
  }

  function RequestRanks(requests: map<Id, Request>): map<nat, nat> {
    map id | id in requests :: PhaseRank(requests[id].phase)
  }

  function CompleterRanks(completers: map<nat, Completer>): map<nat, nat> {
    map t | t in completers :: CompleterRank(completers[t])
  }

  function ClosingRanks(connections: map<Owner, Connection>): map<nat, nat> {
    map c | c in connections :: ClosingRank(connections[c].closing)
  }

  ghost function Rank(s: State): nat {
    Sum(RequestRanks(s.requests)) + Sum(CompleterRanks(s.completers)) + Sum(ClosingRanks(s.connections))
  }

  // ---- each step takes one ----------------------------------------------------------------------------

  /** The step goes on with something that has begun. */
  predicate Continues(m: Move) {
    !(m.Connect? || m.ChangeStores? || m.Prepare? || m.Ask? || m.Frame? || m.TakeIds? || m.Expire?)
  }

  predicate CanMove(s: State, m: Move) { Continues(m) && Enabled(s, m) }

  lemma RequestMoved(requests: map<Id, Request>, id: Id, r: Request)
    requires id in requests
    ensures Sum(RequestRanks(requests[id := r])) + PhaseRank(requests[id].phase)
            == Sum(RequestRanks(requests)) + PhaseRank(r.phase)
  {
    assert RequestRanks(requests[id := r]) == RequestRanks(requests)[id := PhaseRank(r.phase)];
    SumChange(RequestRanks(requests), id, PhaseRank(r.phase));
  }

  lemma CompleterMoved(completers: map<nat, Completer>, t: nat, k: Completer)
    requires t in completers
    ensures Sum(CompleterRanks(completers[t := k])) + CompleterRank(completers[t])
            == Sum(CompleterRanks(completers)) + CompleterRank(k)
  {
    assert CompleterRanks(completers[t := k]) == CompleterRanks(completers)[t := CompleterRank(k)];
    SumChange(CompleterRanks(completers), t, CompleterRank(k));
  }

  lemma CompleterGone(completers: map<nat, Completer>, t: nat)
    requires t in completers
    ensures Sum(CompleterRanks(completers - {t})) + CompleterRank(completers[t]) == Sum(CompleterRanks(completers))
  {
    assert CompleterRanks(completers - {t}) == CompleterRanks(completers) - {t};
    SumWithout(CompleterRanks(completers), t);
  }

  lemma ConnectionMoved(connections: map<Owner, Connection>, c: Owner, conn: Connection)
    requires c in connections
    ensures Sum(ClosingRanks(connections[c := conn])) + ClosingRank(connections[c].closing)
            == Sum(ClosingRanks(connections)) + ClosingRank(conn.closing)
  {
    assert ClosingRanks(connections[c := conn]) == ClosingRanks(connections)[c := ClosingRank(conn.closing)];
    SumChange(ClosingRanks(connections), c, ClosingRank(conn.closing));
  }

  lemma LowersRank(s: State, s': State, id: Id)
    requires Lowers(s, s', id)
    ensures Rank(s') < Rank(s)
  {
    RequestMoved(s.requests, id, s'.requests[id]);
    var c := s.requests[id].owner;
    if s'.connections != s.connections { ConnectionMoved(s.connections, c, s'.connections[c]); }
  }

  /** One request goes down; a connection may change without closing further. */
  predicate Lowers(s: State, s': State, id: Id) {
    && id in s.requests && id in s'.requests && s'.requests == s.requests[id := s'.requests[id]]
    && PhaseRank(s'.requests[id].phase) < PhaseRank(s.requests[id].phase)
    && s'.completers == s.completers
    && (s'.connections == s.connections || ClosingKept(s, s', s.requests[id].owner))
  }

  predicate ClosingKept(s: State, s': State, c: Owner) {
    && c in s.connections && c in s'.connections && s'.connections == s.connections[c := s'.connections[c]]
    && s'.connections[c].closing == s.connections[c].closing
  }

  lemma AtLowers(s: State, id: Id, phase: Phase)
    requires id in s.requests && PhaseRank(phase) < PhaseRank(s.requests[id].phase)
    ensures Lowers(s, At(s, id, phase), id)
  {
  }

  lemma RegisteringLowers(s: State, m: Move)
    requires Registers(m) && MayRegister(s, m) && !m.Prepare? && !m.Ask?
    ensures Lowers(s, Register(s, m), m.id)
  {
    AtLowers(s, m.id, Register(s, m).requests[m.id].phase);
  }

  lemma CommitLowers(s: State, id: Id)
    requires MayConclude(s, Commit(id))
    ensures Lowers(s, Conclude(s, Commit(id)), id)
  {
    AtLowers(s, id, Finished(Committed(s.cache, s.requests[id].mutation.value).Some?));
  }

  lemma ConcludingLowers(s: State, m: Move)
    requires Concludes(m) && MayConclude(s, m)
    ensures Lowers(s, Conclude(s, m), m.id)
  {
    if m.Commit? {
      CommitLowers(s, m.id);
    } else {
      AtLowers(s, m.id, Conclude(s, m).requests[m.id].phase);
    }
  }

  lemma CompleterStepLowers(s: State, m: Move)
    requires Enabled(s, m) && Completes(m) && !m.Frame?
    ensures Rank(Apply(s, m)) < Rank(s)
  {
    var s', k := Apply(s, m), s.completers[m.t];
    if m.t in s'.completers {
      CompleterMoved(s.completers, m.t, s'.completers[m.t]);
    } else {
      CompleterGone(s.completers, m.t);
    }
    if m.Unlink? { ConnectionMoved(s.connections, k.owner, s'.connections[k.owner]); }
  }

  lemma ClosingStepLowers(s: State, m: Move)
    requires Enabled(s, m) && (m.Unlist? || m.PurgeIds?)
    ensures Rank(Apply(s, m)) < Rank(s)
  {
    ConnectionMoved(s.connections, m.c, Apply(s, m).connections[m.c]);
  }

  lemma StepLowers(s: State, m: Move)
    requires CanMove(s, m)
    ensures Rank(Apply(s, m)) < Rank(s)
  {
    if Registers(m) {
      RegisteringLowers(s, m);
      LowersRank(s, Apply(s, m), m.id);
    } else if Concludes(m) {
      ConcludingLowers(s, m);
      LowersRank(s, Apply(s, m), m.id);
    } else if Completes(m) {
      CompleterStepLowers(s, m);
    } else {
      ClosingStepLowers(s, m);
    }
  }

  // ---- something can move -------------------------------------------------------------------------------

  /** Whoever holds a handle's mutex can go on. */
  lemma HolderMoves(s: State, c: Owner) returns (m: Move)
    requires Locks(s.connections, s.requests) && c in s.connections && s.connections[c].handle.lock.Some?
    ensures CanMove(s, m)
  {
    var id := s.connections[c].handle.lock.value;
    m := if s.requests[id].phase == Locked then Insert(id) else Link(id);
  }

  lemma RequestCanMove(s: State, id: Id) returns (m: Move)
    requires Locks(s.connections, s.requests) && id in s.requests && !s.requests[id].phase.Finished?
    requires RoutedOk(s.requests[id])
    ensures CanMove(s, m)
  {
    var c, phase := s.requests[id].owner, s.requests[id].phase;
    if phase.Registering? || phase.Dropping? {
      if !Unlocked(s, c) {
        m := HolderMoves(s, c);
      } else {
        m := if phase.Dropping? then Drop(id) else TakeLock(id);
      }
    } else {
      m := UnblockedMove(s, id);
    }
  }

  /** A request that waits for no lock can go on. */
  lemma UnblockedMove(s: State, id: Id) returns (m: Move)
    requires id in s.requests && RoutedOk(s.requests[id])
    requires var phase := s.requests[id].phase; !phase.Finished? && !phase.Registering? && !phase.Dropping?
    requires s.requests[id].phase.Inserted? ==> s.requests[id].owner in s.connections
    ensures CanMove(s, m)
  {
    match s.requests[id].phase
    case Looking => m := LookUp(id);
    case Locked => m := Insert(id);
    case Inserted => m := Link(id);
    case Sending => m := Send(id, true);
    case Waiting => m := GiveUp(id);
    case Purging => m := Purge(id);
    case Direct => m := Commit(id);
    case Acknowledged => m := Commit(id);
  }

  lemma CompleterCanMove(s: State, t: nat) returns (m: Move)
    requires Locks(s.connections, s.requests) && t in s.completers && OwnersKnown(s)
    ensures CanMove(s, m)
  {
    match s.completers[t]
    case Expecting(_, _) => m := Claim(t);
    case Claimed(_, _, _) => m := FindHandle(t);
    case Unlinking(_, c, _) => if Unlocked(s, c) { m := Unlink(t); } else { m := HolderMoves(s, c); }
    case Delivering(_, _) => m := Deliver(t);
  }

  /** A completer that found a handle still has it. */
  ghost predicate OwnersKnown(s: State) {
    forall t | t in s.completers && s.completers[t].Unlinking? :: s.completers[t].owner in s.connections
  }

  lemma OwnersStep(s: State, m: Move)
    requires OwnersKnown(s) && Enabled(s, m)
    ensures OwnersKnown(Apply(s, m))
  {
    if Registers(m) {
      RegisteringKeepsOwners(s, m);
    } else if Concludes(m) {
      ConcludingKeepsOwners(s, m);
    } else if Completes(m) {
      CompletingKeepsOwners(s, m);
    }
  }

  lemma RegisteringKeepsOwners(s: State, m: Move)
    requires OwnersKnown(s) && Registers(m) && MayRegister(s, m)
    ensures OwnersKnown(Register(s, m))
  {
  }

  lemma ConcludingKeepsOwners(s: State, m: Move)
    requires OwnersKnown(s) && Concludes(m) && MayConclude(s, m)
    ensures OwnersKnown(Conclude(s, m))
  {
  }

  lemma CompletingKeepsOwners(s: State, m: Move)
    requires OwnersKnown(s) && Completes(m) && MayComplete(s, m)
    ensures OwnersKnown(Complete(s, m))
  {
  }

  // ---- every run ends, with everything finished ---------------------------------------------------------

  ghost predicate ContinuesOnly(s: State, moves: seq<Move>, t: State)
    decreases |moves|
  {
    if moves == [] then s == t
    else CanMove(s, moves[0]) && ContinuesOnly(Apply(s, moves[0]), moves[1..], t)
  }

  lemma {:induction false} RunsEnd(s: State, moves: seq<Move>, t: State)
    requires Inv(s) && OwnersKnown(s) && ContinuesOnly(s, moves, t)
    ensures Inv(t) && OwnersKnown(t) && |moves| + Rank(t) <= Rank(s)
    decreases |moves|
  {
    if moves != [] {
      StepLowers(s, moves[0]);
      InvStep(s, moves[0]);
      OwnersStep(s, moves[0]);
      RunsEnd(Apply(s, moves[0]), moves[1..], t);
    }
  }

  lemma {:induction false} OwnersRun(s: State, moves: seq<Move>, t: State)
    requires OwnersKnown(s) && Runs(s, moves, t)
    ensures OwnersKnown(t)
    decreases |moves|
  {
    if moves != [] {
      OwnersStep(s, moves[0]);
      OwnersRun(Apply(s, moves[0]), moves[1..], t);
    }
  }

  /** Once nothing new begins, every run takes boundedly many steps; when no step is left, every
      request has finished, every closing has ended, and no table holds a request. */
  lemma EveryRequestFinishes(s: State, moves: seq<Move>, t: State)
    requires Reachable(s) && ContinuesOnly(s, moves, t)
    ensures |moves| <= Rank(s)
    ensures (forall m :: !CanMove(t, m)) ==>
              && (forall id | id in t.requests :: t.requests[id].phase.Finished?)
              && t.completers == map[] && t.pending == map[]
              && (forall c | c in t.connections :: t.connections[c].closing.Open? || t.connections[c].closing.Gone?)
  {
    ReachableInv(s);
    var past :| Runs(INITIAL, past, s);
    OwnersRun(INITIAL, past, s);
    RunsEnd(s, moves, t);
    if forall m :: !CanMove(t, m) { NothingLeft(t); }
  }

  lemma NothingLeft(t: State)
    requires Inv(t) && OwnersKnown(t) && forall m :: !CanMove(t, m)
    ensures forall id | id in t.requests :: t.requests[id].phase.Finished?
    ensures t.completers == map[] && t.pending == map[]
    ensures forall c | c in t.connections :: t.connections[c].closing.Open? || t.connections[c].closing.Gone?
  {
    forall id | id in t.requests ensures t.requests[id].phase.Finished? {
      assert RoutedOk(t.requests[id]);
      if !t.requests[id].phase.Finished? { var m := RequestCanMove(t, id); }
    }
    forall k ensures k !in t.completers {
      if k in t.completers { var m := CompleterCanMove(t, k); }
    }
    forall id ensures id !in t.pending {
      assert id in t.pending ==> id in t.requests;
    }
    forall c | c in t.connections ensures t.connections[c].closing.Open? || t.connections[c].closing.Gone? {
      assert !CanMove(t, Unlist(c)) && !CanMove(t, PurgeIds(c));
    }
  }
}

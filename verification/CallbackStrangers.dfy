/** A run in which a connection that was not asked acknowledges a mutation. */
module CallbackStrangers {
  import opened Wrappers
  import opened Registry
  import opened Mutations
  import opened CallbackProtocol
  import opened CallbackTheorems

  const ADAPTER: Owner := 1
  const STRANGER: Owner := 2
  const STORES := [StoreRegistration(0, ADAPTER, "*", "*")]
  const MUTATION := Mutation.Set("n", "k", "v")

  /** Reachability, as a property of states that every step keeps. */
  ghost predicate Closed(reach: State -> bool) {
    forall s: State, m: Move | reach(s) && Enabled(s, m) :: reach(Apply(s, m))
  }

  lemma Act(reach: State -> bool, s: State, m: Move) returns (s': State)
    requires Closed(reach) && reach(s) && Enabled(s, m)
    ensures s' == Apply(s, m) && reach(s')
  {
    s' := Apply(s, m);
  }

  lemma {:induction false} RunsOn(s: State, moves: seq<Move>, t: State, m: Move)
    requires Runs(s, moves, t) && Enabled(t, m)
    ensures Runs(s, moves + [m], Apply(t, m))
    decreases |moves|
  {
    if moves == [] {
      assert moves + [m] == [m] && [m][1..] == [];
    } else {
      RunsOn(Apply(s, moves[0]), moves[1..], t, m);
      assert (moves + [m])[1..] == moves[1..] + [m];
    }
  }

  lemma ReachableStates() returns (reach: State -> bool)
    ensures Closed(reach) && reach(INITIAL)
    ensures forall s :: reach(s) ==> Reachable(s)
  {
    reach := s => Reachable(s);
    assert Runs(INITIAL, [], INITIAL);
    forall s: State, m: Move | reach(s) && Enabled(s, m)
      ensures reach(Apply(s, m))
    {
      var moves :| Runs(INITIAL, moves, s);
      RunsOn(INITIAL, moves, s, m);
    }
  }

  lemma GoesToAdapter()
    ensures Routed(STORES, MUTATION, false) == Through(ADAPTER)
  {
    assert "" + "*" == "*";
    StarMatches("", "n");
    StarMatches("", "k");
    assert Overlaps(STORES[0], "n", "k");
  }

  /** The request as it stands. */
  function At(phase: Phase): Request { Request(ADAPTER, Some(MUTATION), false, STORES, phase) }

  function Adapter(ids: set<Id>, lock: Option<Id>): Connection { Connection(Handle(ids, false, lock), true, Open) }

  /** The request is registered and its frame has gone out. */
  const ASKED := State(
    map[ADAPTER := Adapter({0}, None)], map[0 := ADAPTER], map[0 := At(Waiting)], map[], map[], STORES, map[], [])

  const ANSWER := Operation(true)
  const ANSWERED := [Answered(STRANGER, 0, ANSWER)]
  const DELIVERED := ANSWERED + [Delivered(0, ANSWER)]

  lemma ToPrepared(reach: State -> bool) returns (s: State)
    requires Closed(reach) && reach(INITIAL)
    ensures reach(s)
    ensures s == State(map[ADAPTER := Adapter({}, None)], map[], map[0 := At(Looking)], map[], map[], STORES, map[], [])
  {
    GoesToAdapter();
    s := Act(reach, INITIAL, Connect(ADAPTER));
    s := Act(reach, s, ChangeStores(STORES));
    s := Act(reach, s, Prepare(0, MUTATION, false));
  }

  lemma ToInserted(reach: State -> bool, s: State) returns (s': State)
    requires Closed(reach) && reach(s)
    requires s == State(map[ADAPTER := Adapter({}, None)], map[], map[0 := At(Looking)],
                        map[], map[], STORES, map[], [])
    ensures reach(s')
    ensures s' == State(map[ADAPTER := Adapter({}, Some(0))], map[0 := ADAPTER], map[0 := At(Inserted)],
                        map[], map[], STORES, map[], [])
  {
    s' := Act(reach, s, LookUp(0));
    s' := Act(reach, s', TakeLock(0));
    s' := Act(reach, s', Insert(0));
  }

  lemma ToAsked(reach: State -> bool)
    requires Closed(reach) && reach(INITIAL)
    ensures reach(ASKED)
  {
    var s := ToPrepared(reach);
    s := ToInserted(reach, s);
    s := Act(reach, s, Link(0));
    assert {} + {0} == {0};
    s := Act(reach, s, Send(0, true));
    assert s == ASKED;
  }

  /** The stranger's frame claims the pending result. */
  lemma ToClaimed(reach: State -> bool) returns (s: State)
    requires Closed(reach) && reach(ASKED)
    ensures reach(s)
    ensures s == ASKED.(pending := map[], completers := map[7 := Unlinking(0, ADAPTER, ANSWER)], log := ANSWERED)
  {
    s := Act(reach, ASKED, Frame(7, STRANGER, 0, ANSWER));
    assert [] + ANSWERED == ANSWERED;
    s := Act(reach, s, Claim(7));
    assert s.pending == map[];
    s := Act(reach, s, FindHandle(7));
  }

  lemma ToDelivered(reach: State -> bool, s: State) returns (s': State)
    requires Closed(reach) && reach(s)
    requires s == ASKED.(pending := map[], completers := map[7 := Unlinking(0, ADAPTER, ANSWER)], log := ANSWERED)
    ensures reach(s') && 0 in s'.requests && s'.requests[0] == At(Acknowledged)
    ensures s'.log == DELIVERED && s'.cache == map[]
  {
    s' := Act(reach, s, Unlink(7));
    s' := Act(reach, s', Deliver(7));
    s' := Act(reach, s', Receive(0));
  }

  lemma ToCommitted(reach: State -> bool, s: State) returns (s': State)
    requires Closed(reach) && reach(s) && 0 in s.requests && s.requests[0] == At(Acknowledged)
    requires s.log == DELIVERED && s.cache == map[]
    ensures reach(s') && 0 in s'.requests && s'.requests[0] == At(Finished(true))
    ensures s'.log == DELIVERED + [Applied(0, MUTATION)]
  {
    s' := Act(reach, s, Commit(0));
  }

  /** The mutation is applied, and the adapter that it was routed to has not answered. */
  ghost predicate AppliedUnasked(s: State) {
    && Applied(0, MUTATION) in s.log
    && 0 in s.requests && Routed(s.requests[0].stores, MUTATION, s.requests[0].fromAdapter) == Through(ADAPTER)
    && forall a :: Answered(ADAPTER, 0, a) !in s.log
  }

  lemma LogIsStrange(s: State)
    requires 0 in s.requests && s.requests[0] == At(Finished(true)) && s.log == DELIVERED + [Applied(0, MUTATION)]
    ensures AppliedUnasked(s)
  {
    assert s.log[2] == Applied(0, MUTATION);
    GoesToAdapter();
  }

  /** The answer of any connection lets a commit through: here that of one which was not asked, so
      that who answers has to be assumed, or hidden behind identifiers that nobody can guess. */
  lemma StrangerAcknowledges()
    ensures exists s :: Reachable(s) && AppliedUnasked(s)
  {
    var reach := ReachableStates();
    ToAsked(reach);
    var s := ToClaimed(reach);
    s := ToDelivered(reach, s);
    s := ToCommitted(reach, s);
    LogIsStrange(s);
    assert Reachable(s);
  }
}

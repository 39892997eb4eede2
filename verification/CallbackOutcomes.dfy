/** How requests end: applied exactly when nobody had to be asked or the answer was yes. */
module CallbackOutcomes {
  import opened Mutations
  import opened CallbackProtocol
  import opened CallbackInvariants
  import opened CallbackSteps

  /** The task that waits for the request took a result, and the result was a yes. */
  ghost predicate SaidYes(past: seq<Move>, log: seq<Event>, id: Id) {
    Receive(id) in past && Delivered(id, Operation(true)) in log
  }

  /** The mutation may be applied. */
  ghost predicate Cleared(past: seq<Move>, log: seq<Event>, id: Id, r: Request)
    requires r.mutation.Some?
  {
    Chosen(r) == Routing.Direct || SaidYes(past, log, id)
  }

  predicate OnItsWay(phase: Phase) { phase == Phase.Direct || phase == Acknowledged || phase == Finished(true) }

  ghost predicate OutcomeOk(past: seq<Move>, log: seq<Event>, id: Id, r: Request) {
    && (Receive(id) in past ==> (r.phase == Acknowledged || r.phase.Finished?) && WasDelivered(log, id))
    && (r.mutation.Some? ==>
          && (OnItsWay(r.phase) ==> Cleared(past, log, id, r))
          && (Cleared(past, log, id, r) ==>
                OnItsWay(r.phase) || (r.phase == Finished(false) && r.mutation.value.Relocate?)))
    && (r.phase == Finished(true) ==> WasApplied(log, id))
  }

  ghost predicate ChannelsOk(channels: map<Id, Answer>, log: seq<Event>) {
    forall id | id in channels :: Delivered(id, channels[id]) in log
  }

  ghost predicate OutcomesOk(past: seq<Move>, s: State) {
    && ChannelsOk(s.channels, s.log)
    && (forall id | Receive(id) in past :: id in s.requests)
    && (forall id | id in s.requests :: OutcomeOk(past, s.log, id, s.requests[id]))
  }

  // ---- one request -----------------------------------------------------------------------------------

  /** A move that is no receipt and an event that delivers nothing to it leave a request's outcome. */
  lemma OutcomeKept(past: seq<Move>, log: seq<Event>, m: Move, log': seq<Event>, id: Id, r: Request)
    requires OutcomeOk(past, log, id, r) && m != Receive(id)
    requires log' == log || (|log'| == |log| + 1 && log'[..|log|] == log)
    requires |log'| > |log| && log'[|log|].Delivered? && log'[|log|].id == id ==> !WasDelivered(log, id)
    ensures OutcomeOk(past + [m], log', id, r)
  {
    var steps := past + [m];
    assert Receive(id) in steps <==> Receive(id) in past;
    if log' != log {
      var e := log'[|log|];
      assert log' == log + [e];
      LogGrows(log, e);
      if WasApplied(log, id) {
        var i :| 0 <= i < |log| && log[i].Applied? && log[i].id == id;
        assert log'[i] == log[i];
      }
    }
  }

  /** A request that waits to be registered, sent or given up moves on without a receipt. */
  lemma MovedOn(past: seq<Move>, log: seq<Event>, m: Move, id: Id, r: Request, phase: Phase)
    requires OutcomeOk(past, log, id, r) && m != Receive(id) && (r.mutation.Some? ==> RoutedOk(r))
    requires !r.phase.Finished? && !OnItsWay(r.phase) && !OnItsWay(phase)
    ensures OutcomeOk(past + [m], log, id, r.(phase := phase))
  {
    assert Receive(id) in past + [m] <==> Receive(id) in past;
    if r.mutation.Some? { assert Chosen(r.(phase := phase)) == Chosen(r); }
  }

  lemma Received(past: seq<Move>, s: State, id: Id)
    requires OutcomesOk(past, s) && DeliveredOnce(s.log) && In(s, id, Waiting) && id in s.channels
    requires RoutedOk(s.requests[id])
    ensures OutcomeOk(past + [Receive(id)], s.log, id,
                      s.requests[id].(phase := Judged(s.requests[id], s.channels[id])))
  {
    var r, steps := s.requests[id], past + [Receive(id)];
    var r' := r.(phase := Judged(r, s.channels[id]));
    assert Receive(id) in steps && Delivered(id, s.channels[id]) in s.log;
    OneAnswer(s.log, id, s.channels[id], Operation(true));
    if r.mutation.Some? { assert Chosen(r') == Chosen(r) && Chosen(r) == Through(r.owner); }
  }

  lemma OneAnswer(log: seq<Event>, id: Id, a: Answer, b: Answer)
    requires DeliveredOnce(log) && Delivered(id, a) in log
    ensures Delivered(id, b) in log <==> a == b
  {
    if Delivered(id, b) in log {
      var i :| 0 <= i < |log| && log[i] == Delivered(id, a);
      var j :| 0 <= j < |log| && log[j] == Delivered(id, b);
      assert i == j;
    }
  }

  lemma CommitEnds(past: seq<Move>, s: State, id: Id)
    requires OutcomesOk(past, s) && MayConclude(s, Commit(id))
    ensures OutcomeOk(past + [Commit(id)], Conclude(s, Commit(id)).log, id, Conclude(s, Commit(id)).requests[id])
  {
    CommitChanges(s, id);
    var s', r := Conclude(s, Commit(id)), s.requests[id];
    var r' := s'.requests[id];
    assert Receive(id) in past + [Commit(id)] <==> Receive(id) in past;
    assert Chosen(r') == Chosen(r);
    if Committed(s.cache, r.mutation.value).Some? {
      var e := Applied(id, r.mutation.value);
      LogGrows(s.log, e);
      assert s'.log == s.log + [e] && s'.log[|s.log|] == e;
    }
  }

  // ---- one move --------------------------------------------------------------------------------------

  lemma RegisteringStep(past: seq<Move>, s: State, m: Move, id: Id)
    requires OutcomesOk(past, s) && Written(s.requests, s.log) && Registers(m) && MayRegister(s, m)
    requires id in Register(s, m).requests
    ensures OutcomeOk(past + [m], s.log, id, Register(s, m).requests[id])
  {
    RegisteredAs(s, m, id);
    if id in s.requests {
      assert RoutedOk(s.requests[id]);
      if m.id == id {
        MovedOn(past, s.log, m, id, s.requests[id], Register(s, m).requests[id].phase);
      } else {
        OutcomeKept(past, s.log, m, s.log, id, s.requests[id]);
      }
    } else {
      Prepared(past, s, m, id);
    }
  }

  /** What a step of registration makes of a request. */
  lemma RegisteredAs(s: State, m: Move, id: Id)
    requires Registers(m) && MayRegister(s, m) && id in Register(s, m).requests
    ensures id !in s.requests ==> (m.Prepare? || m.Ask?) && m.id == id
    ensures id in s.requests && m.id != id ==> Register(s, m).requests[id] == s.requests[id]
    ensures id in s.requests && m.id == id ==>
              var r, r' := s.requests[id], Register(s, m).requests[id];
              && r' == r.(phase := r'.phase)
              && !r.phase.Finished? && !OnItsWay(r.phase) && !OnItsWay(r'.phase)
  {
    if !m.Prepare? && !m.Ask? { RegisteringMoves(s, m); }
  }

  lemma RegisteringMoves(s: State, m: Move)
    requires Registers(m) && MayRegister(s, m) && !m.Prepare? && !m.Ask?
    ensures m.id in s.requests
    ensures var r := s.requests[m.id];
            && !r.phase.Finished? && !OnItsWay(r.phase)
            && exists phase :: !OnItsWay(phase) && Register(s, m).requests == s.requests[m.id := r.(phase := phase)]
  {
    var r := s.requests[m.id];
    assert Register(s, m).requests == s.requests[m.id := r.(phase := Register(s, m).requests[m.id].phase)];
  }

  lemma Prepared(past: seq<Move>, s: State, m: Move, id: Id)
    requires OutcomesOk(past, s) && (m.Prepare? || m.Ask?) && MayRegister(s, m) && m.id == id
    ensures OutcomeOk(past + [m], s.log, id, Register(s, m).requests[id])
  {
    assert Receive(id) !in past + [m];
  }

  lemma ConcludingStep(past: seq<Move>, s: State, m: Move, id: Id)
    requires OutcomesOk(past, s) && Written(s.requests, s.log) && DeliveredOnce(s.log)
    requires Concludes(m) && MayConclude(s, m) && id in s.requests
    ensures OutcomeOk(past + [m], Conclude(s, m).log, id, Conclude(s, m).requests[id])
  {
    assert RoutedOk(s.requests[id]);
    if m.id != id {
      OthersKept(s, m, id);
      OutcomeKept(past, s.log, m, Conclude(s, m).log, id, s.requests[id]);
    } else if m.Receive? {
      Received(past, s, id);
    } else if m.Commit? {
      CommitEnds(past, s, id);
    } else {
      ConcludedAs(s, m);
      MovedOn(past, s.log, m, id, s.requests[id], Conclude(s, m).requests[id].phase);
    }
  }

  lemma ConcludedAs(s: State, m: Move)
    requires Concludes(m) && MayConclude(s, m) && !m.Receive? && !m.Commit?
    ensures Conclude(s, m).log == s.log && m.id in Conclude(s, m).requests
    ensures var r, r' := s.requests[m.id], Conclude(s, m).requests[m.id];
            && r' == r.(phase := r'.phase)
            && !r.phase.Finished? && !OnItsWay(r.phase) && !OnItsWay(r'.phase)
  {
  }

  lemma OthersKept(s: State, m: Move, id: Id)
    requires Concludes(m) && MayConclude(s, m) && id in s.requests && m.id != id
    ensures id in Conclude(s, m).requests && Conclude(s, m).requests[id] == s.requests[id]
    ensures var log' := Conclude(s, m).log;
            log' == s.log || (|log'| == |s.log| + 1 && log'[..|s.log|] == s.log && log'[|s.log|].Applied?)
  {
    if m.Commit? { CommitChanges(s, m.id); }
  }

  lemma CompletingStep(past: seq<Move>, s: State, m: Move, id: Id)
    requires Inv(s) && OutcomesOk(past, s) && Completes(m) && MayComplete(s, m) && id in s.requests
    ensures OutcomeOk(past + [m], Complete(s, m).log, id, s.requests[id])
  {
    if m.Deliver? { DeliveringIsSettled(s, m.t); }
    CompletingLog(s, m);
    OutcomeKept(past, s.log, m, Complete(s, m).log, id, s.requests[id]);
  }

  lemma CompletingLog(s: State, m: Move)
    requires Completes(m) && MayComplete(s, m)
    ensures Complete(s, m).requests == s.requests
    ensures var log' := Complete(s, m).log;
            || log' == s.log
            || (|log'| == |s.log| + 1 && log'[..|s.log|] == s.log
                && (log'[|s.log|].Delivered? ==> m.Deliver? && log'[|s.log|].id == s.completers[m.t].id))
  {
  }

  lemma ChangingStep(past: seq<Move>, s: State, m: Move, id: Id)
    requires OutcomesOk(past, s) && !Registers(m) && !Concludes(m) && !Completes(m) && MayChange(s, m)
    requires id in s.requests
    ensures Change(s, m).requests == s.requests
    ensures OutcomeOk(past + [m], Change(s, m).log, id, s.requests[id])
  {
    OutcomeKept(past, s.log, m, Change(s, m).log, id, s.requests[id]);
  }

  lemma ChannelsStep(s: State, m: Move)
    requires ChannelsOk(s.channels, s.log) && Enabled(s, m)
    ensures ChannelsOk(Apply(s, m).channels, Apply(s, m).log)
  {
    if Completes(m) {
      DeliveredChannels(s, m);
    } else {
      SameChannels(s, m);
    }
  }

  lemma DeliveredChannels(s: State, m: Move)
    requires ChannelsOk(s.channels, s.log) && Completes(m) && MayComplete(s, m)
    ensures ChannelsOk(Complete(s, m).channels, Complete(s, m).log)
  {
    if m.Deliver? { LogGrows(s.log, Delivered(s.completers[m.t].id, s.completers[m.t].answer)); }
    if m.Frame? { LogGrows(s.log, Answered(m.c, m.id, m.answer)); }
  }

  lemma SameChannels(s: State, m: Move)
    requires Enabled(s, m) && !Completes(m)
    ensures Apply(s, m).channels == s.channels && forall e | e in s.log :: e in Apply(s, m).log
  {
    if Registers(m) {
      RegisteringLog(s, m);
    } else if Concludes(m) {
      ConcludingLog(s, m);
    }
  }

  lemma RegisteringLog(s: State, m: Move)
    requires Registers(m) && MayRegister(s, m)
    ensures Register(s, m).log == s.log && Register(s, m).channels == s.channels
    ensures s.requests.Keys <= Register(s, m).requests.Keys
  {
  }

  lemma ConcludingLog(s: State, m: Move)
    requires Concludes(m) && MayConclude(s, m)
    ensures Conclude(s, m).channels == s.channels && forall e | e in s.log :: e in Conclude(s, m).log
    ensures Conclude(s, m).requests.Keys == s.requests.Keys && m.id in s.requests
  {
    if m.Commit? { CommitChanges(s, m.id); }
  }

  /** All that a commit changes. */
  lemma CommitChanges(s: State, id: Id)
    requires MayConclude(s, Commit(id))
    ensures var s', r := Conclude(s, Commit(id)), s.requests[id];
            && s'.channels == s.channels
            && if Committed(s.cache, r.mutation.value).None?
               then s'.log == s.log && s'.requests == s.requests[id := r.(phase := Finished(false))]
               else
                 && s'.log == s.log + [Applied(id, r.mutation.value)]
                 && s'.requests == s.requests[id := r.(phase := Finished(true))]
  {
    var mutation := s.requests[id].mutation.value;
    match Committed(s.cache, mutation)
    case None => assert Conclude(s, Commit(id)) == At(s, id, Finished(false));
    case Some(cache) =>
      assert Conclude(s, Commit(id)) == Logged(At(s, id, Finished(true)), Applied(id, mutation)).(cache := cache);
  }

  lemma RequestsStay(s: State, m: Move)
    requires Enabled(s, m)
    ensures s.requests.Keys <= Apply(s, m).requests.Keys
    ensures m.Receive? ==> m.id in s.requests
    ensures !Registers(m) ==> Apply(s, m).requests.Keys == s.requests.Keys
  {
    if Registers(m) {
      RegisteringLog(s, m);
    } else if Concludes(m) {
      ConcludingLog(s, m);
    } else if Completes(m) {
      CompletingLog(s, m);
    }
  }

  lemma OutcomesStep(past: seq<Move>, s: State, m: Move)
    requires Inv(s) && OutcomesOk(past, s) && Enabled(s, m)
    ensures OutcomesOk(past + [m], Apply(s, m))
  {
    var s' := Apply(s, m);
    ChannelsStep(s, m);
    RequestsStay(s, m);
    forall id | id in s'.requests
      ensures OutcomeOk(past + [m], s'.log, id, s'.requests[id])
    {
      if Registers(m) {
        RegisteringStep(past, s, m, id);
        RegisteringLog(s, m);
      } else if Concludes(m) {
        ConcludingStep(past, s, m, id);
      } else if Completes(m) {
        CompletingStep(past, s, m, id);
        CompletingLog(s, m);
      } else {
        ChangingStep(past, s, m, id);
      }
    }
  }

  // ---- whole runs ------------------------------------------------------------------------------------

  lemma {:induction false} OutcomesRun(past: seq<Move>, s: State, moves: seq<Move>, t: State)
    requires Inv(s) && OutcomesOk(past, s) && Runs(s, moves, t)
    ensures OutcomesOk(past + moves, t)
    decreases |moves|
  {
    if moves == [] {
      assert past + moves == past;
    } else {
      assert past + moves == past + [moves[0]] + moves[1..];
      InvStep(s, moves[0]);
      OutcomesStep(past, s, moves[0]);
      OutcomesRun(past + [moves[0]], Apply(s, moves[0]), moves[1..], t);
    }
  }

  lemma InitialOutcomes()
    ensures Inv(INITIAL) && OutcomesOk([], INITIAL)
  {
  }

  /** In every run, a mutation that has ended was applied exactly when no adapter had to be asked or its
      task received a yes; a move that was cleared may still find its destination in use. */
  lemma AppliedIffCleared(moves: seq<Move>, s: State, id: Id)
    requires Runs(INITIAL, moves, s) && id in s.requests && s.requests[id].mutation.Some?
    requires s.requests[id].phase.Finished?
    ensures WasApplied(s.log, id) <==> s.requests[id].phase == Finished(true)
    ensures var r := s.requests[id];
            var cleared := || Routed(r.stores, r.mutation.value, r.fromAdapter) == Routing.Direct
                           || (Receive(id) in moves && Delivered(id, Operation(true)) in s.log);
            && (WasApplied(s.log, id) ==> cleared)
            && (cleared && !r.mutation.value.Relocate? ==> WasApplied(s.log, id))
  {
    var r := ReachableOutcome(moves, s, id);
    if r.phase != Finished(true) { NotApplied(s.requests, s.log, id); }
  }

  lemma ReachableOutcome(moves: seq<Move>, s: State, id: Id) returns (r: Request)
    requires Runs(INITIAL, moves, s) && id in s.requests
    ensures r == s.requests[id] && OutcomeOk(moves, s.log, id, r) && Written(s.requests, s.log)
  {
    InitialOutcomes();
    OutcomesRun([], INITIAL, moves, s);
    assert [] + moves == moves;
    InvRun(INITIAL, moves, s);
    r := s.requests[id];
  }
}

/** The retry loops of `ensure_path` and `move_context` as one adapter runs them, with the writes
    of the other adapters between its reads and its writes. */
module IndexLoops {
  import opened Wrappers
  import opened ContextIndex

  /** The shared document. */
  class SharedIndex {
    var index: Option<Document>
    var used: set<nat>

    ghost predicate Valid()
      reads this
    {
      IndexOk(index, used)
    }

    constructor ()
      ensures index == None && used == {} && Valid()
    {
      index, used := None, {};
    }

    /** The compare-and-set of the server. */
    method Write(data: Contexts, version: nat) returns (written: bool)
      modifies this`index
      ensures written == (old(VersionOf(index)) == version)
      ensures index == if written then Some(Document(Some(data), version + 1)) else old(index)
    {
      written := VersionOf(index) == version;
      if written { index := Some(Document(Some(data), version + 1)); }
    }

    /** A fresh collection id. */
    method Fresh() returns (id: nat)
      requires Valid()
      modifies this`used
      ensures Valid() && id !in old(used) && used == old(used) + {id}
    {
      id := 0;
      ghost var seen: set<nat> := {};
      while id in used
        invariant seen <= used && id !in seen && forall k | k in seen :: k < id
        decreases used - seen
      {
        seen := seen + {id};
        id := id + 1;
      }
      used := used + {id};
    }

    /** Another adapter's whole attempt, on the document in place. */
    method OtherAttempt(other: Job)
      requires Valid()
      modifies this
      ensures Valid() && VersionOf(index) >= old(VersionOf(index))
      ensures VersionOf(index) == old(VersionOf(index)) ==> index == old(index)
      ensures old(used) <= used
    {
      var id := Fresh();
      ghost var task := Task(other, 0, VersionOf(index), Reading);
      RoundIsOk(task, index, used - {id}, id);
      assert used - {id} + {id} == used;
      var p := Round(index, other, id);
      if p.Writing? {
        EditIsInjective(other, ContextsOf(index).value, p.data, p.id);
        var written := Write(p.data, p.version);
      }
    }

    method Others(jobs: seq<Job>)
      requires Valid()
      modifies this
      ensures Valid() && VersionOf(index) >= old(VersionOf(index))
      ensures VersionOf(index) == old(VersionOf(index)) ==> index == old(index)
      ensures old(used) <= used
    {
      for i := 0 to |jobs|
        invariant Valid() && VersionOf(index) >= old(VersionOf(index))
        invariant VersionOf(index) == old(VersionOf(index)) ==> index == old(index)
        invariant old(used) <= used
      {
        OtherAttempt(jobs[i]);
      }
    }

    /** The loop of `ensure_path`; before write `k` the others run `others[k]`. A result is the
        id that the index then holds for the context. */
    method EnsurePath(context: string, others: seq<seq<Job>>) returns (r: Outcome)
      requires Valid() && |others| == ATTEMPTS
      modifies this
      ensures Valid()
      ensures r.Found? ==> context in Current() && Current()[context] == Uuid(r.id)
      ensures r.Found? || (r == Malformed && MalformedFor(index, context))
              || (r == Conflicted && VersionOf(index) >= old(VersionOf(index)) + ATTEMPTS)
    {
      var early := Resolved(index, context);
      if early.Done? { return early.outcome; }
      var k := 0;
      while k < ATTEMPTS
        invariant 0 <= k <= ATTEMPTS && Valid() && VersionOf(index) >= old(VersionOf(index)) + k
      {
        var id := Fresh();
        ghost var task := Task(Ensure(context), 0, VersionOf(index), Reading);
        RoundIsOk(task, index, used - {id}, id);
        assert used - {id} + {id} == used;
        var p := EnsureRound(index, context, id);
        if p.Done? { return p.outcome; }
        ghost var read := index;
        Others(others[k]);
        if index == read { EditIsInjective(Ensure(context), ContextsOf(index).value, p.data, p.id); }
        var written := Write(p.data, p.version);
        if written { return Found(p.id); }
        k := k + 1;
      }
      return Conflicted;
    }

    /** The loop of `move_context`. Success replaces a document in which the destination was free
        by the same with the source's collection at the destination; nothing to move means that
        there is no source. */
    method MoveContext(source: string, destination: string, others: seq<seq<Job>>)
    returns (r: Outcome, ghost before: Contexts)
      requires Valid() && |others| == ATTEMPTS
      modifies this
      ensures Valid() && r in {Renamed, NothingToMove, Exists, Malformed, Conflicted}
      ensures r == Renamed ==>
                && source in before && destination !in (before - {source})
                && Current() == (before - {source})[destination := before[source]]
                && (VersionOf(index) == old(VersionOf(index)) + 1 ==> before == old(Current()))
      ensures r == NothingToMove ==> source !in Current()
      ensures r == Exists ==> source in Current() && destination in Current() && source != destination
      ensures r == Malformed ==> ContextsOf(index).None?
      ensures r == Conflicted ==> VersionOf(index) >= old(VersionOf(index)) + ATTEMPTS
    {
      var k := 0;
      before := Current();
      while k < ATTEMPTS
        invariant 0 <= k <= ATTEMPTS && Valid() && VersionOf(index) >= old(VersionOf(index)) + k
        invariant VersionOf(index) == old(VersionOf(index)) ==> index == old(index)
      {
        var p := RenameRound(index, source, destination);
        if p.Done? { return p.outcome, Current(); }
        ghost var read := index;
        before := Current();
        Others(others[k]);
        if index == read { EditIsInjective(Rename(source, destination), ContextsOf(index).value, p.data, p.id); }
        var written := Write(p.data, p.version);
        if written { return Renamed, before; }
        k := k + 1;
      }
      return Conflicted, Current();
    }

    function Current(): Contexts
      reads this
    {
      if ContextsOf(index).Some? then ContextsOf(index).value else map[]
    }
  }

  /** The document has no contexts, or something that is no collection id at the context. */
  predicate MalformedFor(index: Option<Document>, context: string) {
    match ContextsOf(index)
    case None => true
    case Some(contexts) => context in contexts && contexts[context] == NotText
  }
}

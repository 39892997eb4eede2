/** What the cache holds at a route, read off the log of applied mutations. */
module CacheContents {
  import opened Wrappers
  import opened Text
  import opened Routes
  import opened Mutations
  import opened CallbackProtocol
  import opened CallbackTheorems

  function Lookup(cache: Cache, route: Route): Option<string> {
    if route in cache then Some(cache[route]) else None
  }

  /** The last value that a batch gives to a key. */
  function LastEntry(entries: seq<(string, string)>, key: string): Option<string> {
    if entries == [] then None
    else if entries[|entries| - 1].0 == key then Some(entries[|entries| - 1].1)
    else LastEntry(entries[..|entries| - 1], key)
  }

  /** A deletion takes every key, the one key it names, or those that start with the text before
      its star. */
  ghost predicate Takes(pattern: Option<string>, key: string) {
    || pattern.None?
    || key == pattern.value
    || exists prefix, rest :: pattern.value == prefix + "*" && key == prefix + rest
  }

  /** The value at a route after a log: the last write to it, unless it was deleted, moved away or
      expired since; a move brings the value that its source had. */
  ghost function ValueAt(log: seq<Event>, route: Route): Option<string>
    decreases |log|
  {
    if log == [] then None
    else
      var before := log[..|log| - 1];
      match log[|log| - 1]
      case Applied(_, Set(namespace, key, value)) =>
        if route == Route(namespace, key) then Some(value) else ValueAt(before, route)
      case Applied(_, SetBatch(namespace, entries)) =>
        if route.namespace == namespace && LastEntry(entries, route.key).Some? then LastEntry(entries, route.key)
        else ValueAt(before, route)
      case Applied(_, Delete(namespace, pattern)) =>
        if route.namespace == namespace && Takes(pattern, route.key) then None else ValueAt(before, route)
      case Applied(_, Relocate(source, destination)) =>
        if source == destination then ValueAt(before, route)
        else if route.namespace == source then None
        else if route.namespace == destination then ValueAt(before, Route(source, route.key))
        else ValueAt(before, route)
      case Expired(gone) => if gone == route then None else ValueAt(before, route)
      case _ => ValueAt(before, route)
  }

  // ---- one mutation -------------------------------------------------------------------------------------

  lemma SetHolds(cache: Cache, namespace: string, key: string, value: string, route: Route)
    ensures var now := Committed(cache, Set(namespace, key, value));
            && now.Some?
            && Lookup(now.value, route)
               == if route == Route(namespace, key) then Some(value) else Lookup(cache, route)
  {
  }

  lemma TakesIff(namespace: string, pattern: Option<string>, route: Route)
    ensures Covers(Many(namespace, pattern), route) <==> route.namespace == namespace && Takes(pattern, route.key)
  {
    if pattern.None? {
      assert BeforeStar("*") == "" && StartsWith(route.key, "");
    } else {
      var p, key := pattern.value, route.key;
      if EndsWithStar(p) {
        var prefix := BeforeStar(p);
        assert p == prefix + "*";
        if StartsWith(key, prefix) { assert key == prefix + key[|prefix|..]; }
        if key == p { assert key[..|prefix|] == prefix; }
      }
      if q, rest :| p == q + "*" && key == q + rest {
        assert EndsWithStar(p) && BeforeStar(p) == q && key[..|q|] == q;
      }
    }
  }

  lemma DeleteHolds(cache: Cache, namespace: string, pattern: Option<string>, route: Route)
    ensures var now := Committed(cache, Delete(namespace, pattern));
            && now.Some?
            && Lookup(now.value, route)
               == if route.namespace == namespace && Takes(pattern, route.key) then None else Lookup(cache, route)
  {
    TakesIff(namespace, pattern, route);
  }

  lemma {:induction false} SetAllLast(cache: Cache, namespace: string, entries: seq<(string, string)>)
    requires entries != []
    ensures var n := |entries| - 1;
            SetAll(cache, namespace, entries)
            == SetAll(cache, namespace, entries[..n])[Route(namespace, entries[n].0) := entries[n].1]
    decreases |entries|
  {
    if |entries| > 1 {
      var n := |entries| - 1;
      assert entries[1..][..n - 1] == entries[..n][1..];
      SetAllLast(cache[Route(namespace, entries[0].0) := entries[0].1], namespace, entries[1..]);
    }
  }

  lemma {:induction false} BatchHolds(cache: Cache, namespace: string, entries: seq<(string, string)>, route: Route)
    ensures var now := Committed(cache, SetBatch(namespace, entries));
            && now.Some?
            && Lookup(now.value, route)
               == if route.namespace == namespace && LastEntry(entries, route.key).Some?
                  then LastEntry(entries, route.key) else Lookup(cache, route)
    decreases |entries|
  {
    if entries != [] {
      SetAllLast(cache, namespace, entries);
      BatchHolds(cache, namespace, entries[..|entries| - 1], route);
    }
  }

  lemma MoveHolds(cache: Cache, source: string, destination: string, route: Route)
    requires Committed(cache, Relocate(source, destination)).Some?
    ensures Lookup(Committed(cache, Relocate(source, destination)).value, route)
            == if source == destination then Lookup(cache, route)
               else if route.namespace == source then None
               else if route.namespace == destination then Lookup(cache, Route(source, route.key))
               else Lookup(cache, route)
  {
    if source != destination {
      MoveConserves(cache, source, destination);
      assert Route(route.namespace, route.key) == route;
    }
  }

  // ---- whole runs -----------------------------------------------------------------------------------------

  lemma AppliedHolds(log: seq<Event>, cache: Cache, mutation: Mutation, id: Id, route: Route)
    requires Committed(cache, mutation).Some? && log != [] && log[|log| - 1] == Applied(id, mutation)
    requires forall r :: ValueAt(log[..|log| - 1], r) == Lookup(cache, r)
    ensures ValueAt(log, route) == Lookup(Committed(cache, mutation).value, route)
  {
    match mutation
    case Set(namespace, key, value) => SetHolds(cache, namespace, key, value, route);
    case SetBatch(namespace, entries) => BatchHolds(cache, namespace, entries, route);
    case Delete(namespace, pattern) => DeleteHolds(cache, namespace, pattern, route);
    case Relocate(source, destination) => MoveHolds(cache, source, destination, route);
  }

  lemma {:induction false} ReplayHolds(log: seq<Event>, route: Route)
    requires Replay(log).Some?
    ensures Lookup(Replay(log).value, route) == ValueAt(log, route)
    decreases |log|
  {
    if log != [] {
      var before, last := log[..|log| - 1], log[|log| - 1];
      assert Replay(log) == Replayed(Replay(before), last);
      forall r ensures ValueAt(before, r) == Lookup(Replay(before).value, r) { ReplayHolds(before, r); }
      if last.Applied? { AppliedHolds(log, Replay(before).value, last.mutation, last.id, route); }
    }
  }

  /** In every reachable state a route holds the last value written to it that has not been deleted,
      moved or expired since. */
  lemma CacheHoldsLastWrite(s: State, route: Route)
    requires Reachable(s)
    ensures Lookup(s.cache, route) == ValueAt(s.log, route)
  {
    ReachableCacheIsReplay(s);
    ReplayHolds(s.log, route);
  }
}

/** Which adapter a mutation is sent to: the newest whose registration concerns it. */
module MutationRouting {
  import opened Wrappers
  import opened Text
  import opened Patterns
  import opened Registry
  import opened Mutations

  /** A registered key pattern touches a requested one: a plain key splits along it; a prefix shares
      a key with it and does not escape the overlap test. */
  ghost predicate Touches(keyPattern: string, requested: string) {
    if IsLiteralText(requested) then HasSplit(TokensOf(keyPattern), requested)
    else if EndsWithStar(requested) && IsLiteralText(BeforeStar(requested))
    then HasCommonKey(keyPattern, requested) && !MissesPrefix(keyPattern, BeforeStar(requested))
    else PatternOverlap(keyPattern, requested)
  }

  ghost predicate StandsFor(store: StoreRegistration, namespace: string, key: string) {
    CoversNamespace(store.namespacePattern, namespace) && Touches(store.keyPattern, key)
  }

  /** The registration has a say in the mutation; in a batch, in all of it. */
  ghost predicate Concerns(store: StoreRegistration, mutation: Mutation) {
    match mutation
    case Set(namespace, key, _) => StandsFor(store, namespace, key)
    case SetBatch(namespace, entries) =>
      forall i | 0 <= i < |entries| :: StandsFor(store, namespace, entries[i].0)
    case Delete(namespace, None) => CoversNamespace(store.namespacePattern, namespace)
    case Delete(namespace, Some(pattern)) => StandsFor(store, namespace, pattern)
    case Relocate(source, _) => CoversNamespace(store.namespacePattern, source)
  }

  /** The registration has a say in one entry of a batch. */
  ghost predicate ConcernsPart(store: StoreRegistration, mutation: Mutation) {
    mutation.SetBatch? &&
    exists i | 0 <= i < |mutation.entries| :: StandsFor(store, mutation.namespace, mutation.entries[i].0)
  }

  lemma TouchesIff(keyPattern: string, requested: string)
    ensures Touches(keyPattern, requested) <==> PatternOverlap(keyPattern, requested)
  {
    if IsLiteralText(requested) {
      OverlapIsMatchOnKeys(keyPattern, requested);
      MatchesIffSplits(keyPattern, requested);
    } else if EndsWithStar(requested) && IsLiteralText(BeforeStar(requested)) {
      assert requested == BeforeStar(requested) + "*";
      OverlapMissesIff(keyPattern, BeforeStar(requested));
    }
  }

  lemma StandsForIff(store: StoreRegistration, namespace: string, key: string)
    ensures StandsFor(store, namespace, key) <==> Overlaps(store, namespace, key)
  {
    NamespaceCoverIff(store.namespacePattern, namespace);
    TouchesIff(store.keyPattern, key);
  }

  /** The namespace and key pattern that a single request asks the registry for. */
  function Requested(mutation: Mutation): (string, string)
    requires !mutation.SetBatch?
  {
    match mutation
    case Set(namespace, key, _) => (namespace, key)
    case Delete(namespace, pattern) => (namespace, if pattern.Some? then pattern.value else "*")
    case Relocate(source, _) => (source, "*")
  }

  lemma ConcernsIff(store: StoreRegistration, mutation: Mutation)
    requires !mutation.SetBatch?
    ensures Concerns(store, mutation) <==> Overlaps(store, Requested(mutation).0, Requested(mutation).1)
  {
    NamespaceCoverIff(store.namespacePattern, Requested(mutation).0);
    StandsForIff(store, Requested(mutation).0, Requested(mutation).1);
  }

  lemma BatchConcernsIff(store: StoreRegistration, namespace: string, entries: seq<(string, string)>)
    ensures Concerns(store, SetBatch(namespace, entries)) <==> OverlapsAll(store, namespace, Keys(entries))
    ensures ConcernsPart(store, SetBatch(namespace, entries)) <==> OverlapsAny(store, namespace, Keys(entries))
  {
    forall i | 0 <= i < |entries|
      ensures Overlaps(store, namespace, Keys(entries)[i]) <==> StandsFor(store, namespace, entries[i].0)
    {
      StandsForIff(store, namespace, entries[i].0);
    }
    if ConcernsPart(store, SetBatch(namespace, entries)) {
      var i :| 0 <= i < |entries| && StandsFor(store, namespace, entries[i].0);
      assert Overlaps(store, namespace, Keys(entries)[i]);
    }
    if OverlapsAny(store, namespace, Keys(entries)) {
      var i :| 0 <= i < |entries| && Overlaps(store, namespace, Keys(entries)[i]);
      assert StandsFor(store, namespace, entries[i].0);
    }
  }

  lemma {:induction false} NewestOverlapping(stores: seq<StoreRegistration>, namespace: string, pattern: string)
    returns (i: int)
    ensures -1 <= i < |stores|
    ensures NewestFor(stores, namespace, pattern) == if i < 0 then None else Some(stores[i])
    ensures i >= 0 ==> Overlaps(stores[i], namespace, pattern)
    ensures forall j | i < j < |stores| :: !Overlaps(stores[j], namespace, pattern)
  {
    if stores == [] {
      i := -1;
    } else {
      i := |stores| - 1;
      if !Overlaps(stores[i], namespace, pattern) { i := NewestOverlapping(stores[..i], namespace, pattern); }
    }
  }

  lemma {:induction false} NewestOverlappingAll(stores: seq<StoreRegistration>, namespace: string, keys: seq<string>)
    returns (i: int)
    ensures -1 <= i < |stores|
    ensures NewestForAll(stores, namespace, keys) == if i < 0 then None else Some(stores[i])
    ensures i >= 0 ==> OverlapsAll(stores[i], namespace, keys)
    ensures forall j | i < j < |stores| :: !OverlapsAll(stores[j], namespace, keys)
  {
    if stores == [] {
      i := -1;
    } else {
      i := |stores| - 1;
      if !OverlapsAll(stores[i], namespace, keys) { i := NewestOverlappingAll(stores[..i], namespace, keys); }
    }
  }

  lemma {:induction false} SomeOverlapping(stores: seq<StoreRegistration>, namespace: string, keys: seq<string>)
    ensures AnyOverlap(stores, namespace, keys)
            <==> exists j | 0 <= j < |stores| :: OverlapsAny(stores[j], namespace, keys)
  {
    if stores != [] {
      var last := |stores| - 1;
      SomeOverlapping(stores[..last], namespace, keys);
      assert forall j | 0 <= j < last :: stores[..last][j] == stores[j];
    }
  }

  lemma NewestConcerned(stores: seq<StoreRegistration>, mutation: Mutation) returns (i: int)
    requires !mutation.SetBatch?
    ensures -1 <= i < |stores|
    ensures NewestFor(stores, Requested(mutation).0, Requested(mutation).1) == if i < 0 then None else Some(stores[i])
    ensures i >= 0 ==> Concerns(stores[i], mutation)
    ensures forall j | i < j < |stores| :: !Concerns(stores[j], mutation)
  {
    i := NewestOverlapping(stores, Requested(mutation).0, Requested(mutation).1);
    forall j | 0 <= j < |stores|
      ensures Concerns(stores[j], mutation) <==> Overlaps(stores[j], Requested(mutation).0, Requested(mutation).1)
    {
      ConcernsIff(stores[j], mutation);
    }
  }

  lemma BatchConcerned(stores: seq<StoreRegistration>, namespace: string, entries: seq<(string, string)>)
    returns (i: int)
    ensures -1 <= i < |stores|
    ensures i >= 0 ==> Concerns(stores[i], SetBatch(namespace, entries))
    ensures forall j | i < j < |stores| :: !Concerns(stores[j], SetBatch(namespace, entries))
    ensures BatchMatch(stores, namespace, Keys(entries))
            == if i >= 0 then BatchStoreMatch.Store(stores[i])
               else if exists j | 0 <= j < |stores| :: ConcernsPart(stores[j], SetBatch(namespace, entries)) then Mixed
               else NoStore
  {
    var keys := Keys(entries);
    i := NewestOverlappingAll(stores, namespace, keys);
    SomeOverlapping(stores, namespace, keys);
    forall j | 0 <= j < |stores|
      ensures Concerns(stores[j], SetBatch(namespace, entries)) <==> OverlapsAll(stores[j], namespace, keys)
      ensures ConcernsPart(stores[j], SetBatch(namespace, entries)) <==> OverlapsAny(stores[j], namespace, keys)
    {
      BatchConcernsIff(stores[j], namespace, entries);
    }
  }

  /** A mutation goes to the newest registration that it concerns. Without one it is applied at once,
      but a batch that concerns some registration in part is refused. What an adapter sent is
      applied at once. */
  lemma RoutedToNewest(stores: seq<StoreRegistration>, mutation: Mutation) returns (i: int)
    ensures -1 <= i < |stores|
    ensures i >= 0 ==> Concerns(stores[i], mutation)
    ensures forall j | i < j < |stores| :: !Concerns(stores[j], mutation)
    ensures Routed(stores, mutation, false)
            == if i >= 0 then Through(stores[i].owner)
               else if exists j | 0 <= j < |stores| :: ConcernsPart(stores[j], mutation) then Refused
               else Direct
    ensures Routed(stores, mutation, true) == Direct
  {
    if mutation.SetBatch? {
      i := BatchConcerned(stores, mutation.namespace, mutation.entries);
    } else {
      i := NewestConcerned(stores, mutation);
    }
  }
}

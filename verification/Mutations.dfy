/** Mutations, what they do to the cache, and which adapter they are routed to. */
module Mutations {
  import opened Wrappers
  import opened Routes
  import opened Registry

  type Cache = map<Route, string>

  datatype Mutation =
    | Set(namespace: string, key: string, value: string)
    | SetBatch(namespace: string, entries: seq<(string, string)>)
    | Delete(namespace: string, pattern: Option<string>)
    | Relocate(source: string, destination: string)

  // ---- the cache ---------------------------------------------------------------------------------

  function SetAll(cache: Cache, namespace: string, entries: seq<(string, string)>): Cache
    decreases |entries|
  {
    if entries == [] then cache
    else SetAll(cache[Route(namespace, entries[0].0) := entries[0].1], namespace, entries[1..])
  }

  predicate HoldsNamespace(cache: Cache, namespace: string) {
    exists r | r in cache :: r.namespace == namespace
  }

  /** Where a route's entry is found before its namespace moved. */
  function Before(route: Route, source: string, destination: string): Route {
    if route.namespace == destination then Route(source, route.key) else route
  }

  function Moved(cache: Cache, source: string, destination: string): Cache {
    var targets := (set r | r in cache && r.namespace == source :: Route(destination, r.key))
                   + (set r | r in cache && r.namespace != source && r.namespace != destination);
    map r | r in targets && Before(r, source, destination) in cache :: cache[Before(r, source, destination)]
  }

  /** The store operation of `commit`: the new cache, or the error of a move onto a namespace
      in use. */
  function Committed(cache: Cache, mutation: Mutation): Option<Cache> {
    match mutation
    case Set(namespace, key, value) => Some(cache[Route(namespace, key) := value])
    case SetBatch(namespace, entries) => Some(SetAll(cache, namespace, entries))
    case Delete(namespace, pattern) => Some(map r | r in cache && !Covers(Many(namespace, pattern), r) :: cache[r])
    case Relocate(source, destination) =>
      if source == destination then Some(cache)
      else if HoldsNamespace(cache, destination) then None
      else Some(Moved(cache, source, destination))
  }

  /** A batch is its entries from left to right, so the last value for a key is the one kept. */
  lemma {:induction false} BatchKeepsLastValue(cache: Cache, namespace: string, entries: seq<(string, string)>,
                                               route: Route)
    ensures var now := SetAll(cache, namespace, entries);
            if exists i | 0 <= i < |entries| :: Route(namespace, entries[i].0) == route then
              exists i | 0 <= i < |entries| ::
                && Route(namespace, entries[i].0) == route && route in now && now[route] == entries[i].1
                && forall j | i < j < |entries| :: Route(namespace, entries[j].0) != route
            else (route in now <==> route in cache) && (route in cache ==> now[route] == cache[route])
    decreases |entries|
  {
    if entries != [] {
      var rest := entries[1..];
      assert forall i | 1 <= i < |entries| :: entries[i] == rest[i - 1];
      BatchKeepsLastValue(cache[Route(namespace, entries[0].0) := entries[0].1], namespace, rest, route);
    }
  }

  /** A move that succeeds carries every entry of the source over, keeps the other entries, and
      leaves nothing at the source. */
  lemma MoveConserves(cache: Cache, source: string, destination: string)
    requires source != destination
    ensures var now := Committed(cache, Relocate(source, destination));
            && (now.None? <==> HoldsNamespace(cache, destination))
            && (now.Some? ==>
                  && !HoldsNamespace(now.value, source)
                  && (forall k :: Route(source, k) in cache <==> Route(destination, k) in now.value)
                  && (forall k | Route(source, k) in cache ::
                      now.value[Route(destination, k)] == cache[Route(source, k)])
                  && (forall r: Route | r.namespace != source && r.namespace != destination ::
                        (r in cache <==> r in now.value) && (r in cache ==> now.value[r] == cache[r])))
  {
    if !HoldsNamespace(cache, destination) {
      var now := Moved(cache, source, destination);
      forall k
        ensures Route(source, k) in cache <==> Route(destination, k) in now
      {
        var r := Route(source, k);
        assert r in cache ==> Before(Route(destination, k), source, destination) == r;
      }
    }
  }

  // ---- routing -----------------------------------------------------------------------------------

  /** What preparing a mutation decides: commit at once, ask one adapter first, or refuse. */
  datatype Routing = Direct | Through(owner: nat) | Refused

  function Keys(entries: seq<(string, string)>): (r: seq<string>) {
    seq(|entries|, i requires 0 <= i < |entries| => entries[i].0)
  }

  function RoutedBy(store: Option<StoreRegistration>): Routing {
    match store
    case None => Direct
    case Some(s) => Through(s.owner)
  }

  function Routed(stores: seq<StoreRegistration>, mutation: Mutation, fromAdapter: bool): Routing {
    if fromAdapter then Direct
    else
      match mutation
      case Set(namespace, key, _) => RoutedBy(NewestFor(stores, namespace, key))
      case SetBatch(namespace, entries) =>
        (match BatchMatch(stores, namespace, Keys(entries))
         case NoStore => Direct
         case Store(s) => Through(s.owner)
         case Mixed => Refused)
      case Delete(namespace, pattern) =>
        RoutedBy(NewestFor(stores, namespace, if pattern.Some? then pattern.value else "*"))
      case Relocate(source, _) => RoutedBy(NewestFor(stores, source, "*"))
  }
}

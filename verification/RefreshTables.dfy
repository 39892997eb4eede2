/** The broker's and server's shared tables as the objects that the critical sections of
    the source update; each method does to its table what one protocol effect does. */
module RefreshTables {
  import opened Wrappers
  import opened Routes
  import opened RefreshProtocol

  /** The sharded map of active route states. */
  class RouteStates {
    var active: map<Route, StateId>
    const hash: Route -> nat

    constructor (hash: Route -> nat)
      ensures active == map[] && this.hash == hash
    {
      active := map[];
      this.hash := hash;
    }

    /** `get_or_create_route_state`: an active route keeps its id. */
    method GetOrCreate(route: Route, newId: StateId) returns (id: StateId)
      modifies this
      ensures active == old(active)[route := id]
      ensures id == (if route in old(active) then old(active)[route] else newId)
    {
      if route in active {
        id := active[route];
        assert active == active[route := id];
      } else {
        id := newId;
        active := active[route := newId];
      }
    }

    /** `release_provider_refresh`: only the state with this id goes. */
    method ReleaseProviderRefresh(route: Route, id: StateId)
      modifies this
      ensures active == Released(old(active), route, id)
      ensures !(route in active && active[route] == id)
      ensures forall r | r in old(active) && !(r == route && old(active)[r] == id) ::
                r in active && active[r] == old(active)[r]
    {
      if route in active && active[route] == id {
        active := active - {route};
      }
    }

    /** `active_routes_in_namespace`: walking every shard finds every active route of the
        namespace exactly once. */
    method ActiveRoutesInNamespace(namespace: string) returns (leads: set<Lead>)
      ensures leads == set r | r in active && r.namespace == namespace :: Lead(r, active[r])
    {
      leads := {};
      var shard := 0;
      while shard < MUTATION_SHARD_COUNT
        invariant 0 <= shard <= MUTATION_SHARD_COUNT
        invariant leads == set r | r in active && r.namespace == namespace && Shard(hash, r) < shard ::
                    Lead(r, active[r])
      {
        leads := leads + set r | r in active && r.namespace == namespace && Shard(hash, r) == shard ::
                           Lead(r, active[r]);
        shard := shard + 1;
      }
    }
  }

  /** The in-flight refreshes, keyed by route. */
  class InflightRefreshes {
    var inflight: map<Route, RefreshId>

    constructor ()
      ensures inflight == map[]
    {
      inflight := map[];
    }

    /** The locked part of `finish_outcome`: join what is in flight or become it. */
    method JoinOrCreate(route: Route, newId: RefreshId) returns (id: RefreshId, created: bool)
      modifies this
      ensures created == (route !in old(inflight))
      ensures route in inflight && inflight[route] == id
      ensures inflight == if created then old(inflight)[route := newId] else old(inflight)
    {
      if route in inflight {
        id, created := inflight[route], false;
      } else {
        id, created := newId, true;
        inflight := inflight[route := newId];
      }
    }

    /** `remove_refresh_if_current`: never another refresh's entry. */
    method RemoveIfCurrent(route: Route, id: RefreshId)
      modifies this
      ensures inflight == Retired(old(inflight), route, id)
      ensures forall r | r in old(inflight) && old(inflight)[r] != id ::
                r in inflight && inflight[r] == old(inflight)[r]
    {
      if route in inflight && inflight[route] == id {
        inflight := inflight - {route};
      }
    }
  }

  /** The negative cache. */
  class MissCache {
    var markers: map<Route, Dispatch>

    constructor ()
      ensures markers == map[]
    {
      markers := map[];
    }

    method Insert(d: Dispatch, ttlSeconds: nat)
      modifies this
      ensures markers == if ttlSeconds == 0 then old(markers) else old(markers)[d.route := d]
    {
      if ttlSeconds != 0 {
        markers := markers[d.route := d];
      }
    }

    method InvalidateExact(route: Route)
      modifies this
      ensures markers == old(markers) - {route}
    {
      markers := markers - {route};
    }

    /** `invalidate_namespace` and `invalidate_pattern`: exactly the covered markers go. */
    method InvalidateScope(namespace: string, pattern: Option<string>)
      modifies this
      ensures markers == Swept(old(markers), Many(namespace, pattern))
      ensures forall r | r in old(markers) :: r in markers <==> !Covers(Many(namespace, pattern), r)
    {
      markers := map r | r in markers && !Covers(Many(namespace, pattern), r) :: markers[r];
    }
  }
}

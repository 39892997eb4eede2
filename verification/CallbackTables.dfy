/** The tables behind the callback protocol, updated in place: each method is one function of
    the server run without interference, tied to the protocol's steps. */
module CallbackTables {
  import opened CallbackProtocol

  class PendingRequests {
    var ids: set<Id>
    var closed: bool

    constructor ()
      ensures ids == {} && !closed
    {
      ids, closed := {}, false;
    }
  }

  class Correlator {
    var connections: map<Owner, PendingRequests>
    var pending: map<Id, Owner>

    constructor ()
      ensures connections == map[] && pending == map[] && Valid()
    {
      connections, pending := map[], map[];
    }

    ghost function Handles(): set<object>
      reads this
    {
      set c | c in connections :: connections[c]
    }

    /** Handles are not shared, and listed handles and pending results name each other. */
    ghost predicate Valid()
      reads this, Handles()
    {
      && (forall c, d | c in connections && d in connections && connections[c] == connections[d] :: c == d)
      && (forall c | c in connections :: !connections[c].closed)
      && (forall id | id in pending :: pending[id] in connections && id in connections[pending[id]].ids)
      && (forall c, id | c in connections && id in connections[c].ids :: id in pending && pending[id] == c)
    }

    /** A connection is accepted. */
    method Connect(c: Owner) returns (handle: PendingRequests)
      requires Valid() && c !in connections
      modifies this
      ensures Valid() && fresh(handle) && connections == old(connections)[c := handle] && pending == old(pending)
    {
      handle := new PendingRequests();
      connections := connections[c := handle];
    }

    /** Refused exactly when the handle is closed; otherwise both tables gain the id. */
    method RegisterPendingResult(handle: PendingRequests, owner: Owner, id: Id) returns (registered: bool)
      requires Valid() && id !in pending
      requires !handle.closed ==> owner in connections && connections[owner] == handle
      modifies this, handle
      ensures Valid() && connections == old(connections) && registered == !old(handle.closed)
      ensures registered ==>
                pending == old(pending)[id := owner] && handle.ids == old(handle.ids) + {id} && !handle.closed
      ensures !registered ==> pending == old(pending) && unchanged(handle)
    {
      if handle.closed { return false; }
      pending := pending[id := owner];
      handle.ids := handle.ids + {id};
      return true;
    }

    /** The entry is removed and delivered, or the result is uncorrelated. */
    method CompleteResult(id: Id) returns (delivered: bool)
      requires Valid()
      modifies this, Handles()
      ensures Valid() && connections == old(connections)
      ensures delivered == (id in old(pending)) && pending == old(pending) - {id}
      ensures forall c | c in connections :: connections[c].ids == old(connections[c].ids) - {id}
    {
      delivered := id in pending;
      if delivered {
        var owner := pending[id];
        pending := pending - {id};
        if owner in connections {
          var handle := connections[owner];
          handle.ids := handle.ids - {id};
        }
      } else {
        assert pending - {id} == pending;
      }
    }

    /** `remove_pending_result`, on a handle that may already be unlisted. */
    method RemovePendingResult(handle: PendingRequests, id: Id)
      requires Valid()
      requires id in pending ==> handle == connections[pending[id]]
      modifies this, handle
      ensures Valid() && connections == old(connections)
      ensures pending == old(pending) - {id} && handle.ids == old(handle.ids) - {id}
              && handle.closed == old(handle.closed)
    {
      pending := pending - {id};
      handle.ids := handle.ids - {id};
    }

    /** The owner leaves the tables with all its results and nobody else's. */
    method RemoveConnection(c: Owner, handle: PendingRequests)
      requires Valid() && c in connections && connections[c] == handle
      modifies this, handle
      ensures Valid() && connections == old(connections) - {c}
      ensures pending == old(pending) - old(handle.ids) && handle.closed && handle.ids == {}
      ensures forall id | id in pending :: pending[id] != c
    {
      var ids := handle.ids;
      handle.closed := true;
      handle.ids := {};
      connections := connections - {c};
      Purge(ids);
      forall d, id | d in connections && id in connections[d].ids
        ensures id in pending && pending[id] == d
      {
        assert d != c && connections[d] != handle && id in old(connections[d].ids);
        assert old(pending)[id] == d && id !in ids;
      }
    }

    method Purge(ids: set<Id>)
      modifies this`pending
      ensures pending == old(pending) - ids
    {
      var left := ids;
      while left != {}
        invariant left <= ids && pending == old(pending) - (ids - left)
        decreases |left|
      {
        var id :| id in left;
        left := left - {id};
        pending := pending - {id};
        assert ids - left == ids - (left + {id}) + {id};
      }
      assert ids - {} == ids;
    }
  }
}

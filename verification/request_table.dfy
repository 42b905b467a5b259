/** The registry's fields as the source changes them: recordLocked with its eviction loop, and the
    read-only lookups. */
module RequestTable {
  import opened Events
  import opened RequestModel

  class Registry {
    var table: map<Key, Tracked>
    var order: seq<Key>

    constructor ()
      ensures table == map[] && order == []
    {
      table, order := map[], [];
    }

    method RecordLocked(key: Key, handle: Handle, input: string)
      modifies this
      ensures table == RecordedTable(old(table), old(order), key, Tracked(handle, input))
      ensures order == RecordedOrder(old(table), old(order), key)
    {
      if key !in table {
        order := order + [key];
        ghost var q, t := order, table;
        ghost var gone := 0;
        while |order| > MAX_TRACKED_REQUEST_IDS
          invariant 0 <= gone <= |q| && order == q[gone..]
          invariant gone + Overflow(order) == Overflow(q)
          invariant table == Without(t, q[..gone])
          modifies this
          decreases |order|
        {
          var oldest := order[0];
          table := table - {oldest};
          order := order[1..];
          assert q[..gone + 1][..gone] == q[..gone];
          gone := gone + 1;
        }
      }
      table := table[key := Tracked(handle, input)];
    }

    method TrackedHandle(sessionId: string, requestId: string) returns (found: Option<Handle>)
      ensures found == if requestId == "" || Key(sessionId, requestId) !in table then None
                       else Some(table[Key(sessionId, requestId)].handle)
    {
      if requestId == "" {
        return None;
      }
      if Key(sessionId, requestId) !in table {
        return None;
      }
      return Some(table[Key(sessionId, requestId)].handle);
    }

    /** The walk over the table has no fixed order; any tracked handle of the run will do. */
    method ByRun(sessionId: string, runId: string) returns (found: Option<Handle>)
      ensures found.Some? ==> found.value == Handle(sessionId, runId)
      ensures found.Some? <==> exists k :: k in table && table[k].handle == Handle(sessionId, runId)
    {
      var keys := table.Keys;
      while keys != {}
        invariant keys <= table.Keys
        invariant forall k :: k in table.Keys - keys ==> table[k].handle != Handle(sessionId, runId)
        decreases keys
      {
        var k :| k in keys;
        if table[k].handle.sessionId == sessionId && table[k].handle.runId == runId {
          return Some(table[k].handle);
        }
        keys := keys - {k};
      }
      found := None;
    }
  }
}

/** CapabilityRegistry and the tool proxy's loop (ai-runtime/agent/capability.go:182-328, 426-496) as
    the source writes them. The executor of a binding is named by its connection. */
module CapabilityRegistry {
  import opened Events
  import opened PluginOrder
  import P = PluginRegistry
  import W = CapabilityWait

  type Bindings = map<string, W.Binding>

  datatype WaitKey = WaitKey(session: string, tool: string)

  /** A notification channel of capacity one. */
  class Channel {
    var signal: bool

    constructor ()
      ensures !signal
    {
      signal := false;
    }
  }

  class CapabilityRegistry {
    var bindings: map<string, Bindings>
    var waiters: map<WaitKey, Channel>

    constructor ()
      ensures Valid() && bindings == map[] && waiters == map[]
    {
      bindings, waiters := map[], map[];
    }

    /** No channel is registered twice. */
    ghost predicate Valid()
      reads this`waiters
    {
      forall v, w :: v in waiters && w in waiters && v != w ==> waiters[v] != waiters[w]
    }

    function Of(session: string): Bindings
      reads this`bindings
    {
      if session in bindings then bindings[session] else map[]
    }

    /** Replaces the binding of the connection and signals everybody who waits for one of its tools. */
    method Bind(session: string, connection: string, tools: seq<string>, now: int, ttl: int, hasExecutor: bool)
      returns (refreshed: bool)
      requires Valid()
      modifies this`bindings, waiters.Values
      ensures Valid() && waiters == old(waiters)
      ensures !hasExecutor ==> !refreshed && bindings == old(bindings)
      ensures hasExecutor ==>
        && refreshed == (connection in old(Of(session)))
        && bindings == old(bindings)[session := old(Of(session))[connection := W.Binding(tools, now + ttl)]]
      ensures forall w :: w in waiters ==>
        waiters[w].signal == (old(waiters[w].signal) || (hasExecutor && w.session == session && w.tool in tools))
    {
      if !hasExecutor {
        return false;
      }
      var conns := Of(session);
      refreshed := connection in conns;
      bindings := bindings[session := conns[connection := W.Binding(tools, now + ttl)]];
      for n := 0 to |tools|
        invariant forall w :: w in waiters ==>
          waiters[w].signal == (old(waiters[w].signal) || (w.session == session && w.tool in tools[..n]))
        modifies waiters.Values
      {
        assert tools[..n + 1] == tools[..n] + [tools[n]];
        var key := WaitKey(session, tools[n]);
        if key in waiters { waiters[key].signal := true; }
      }
      assert tools[..|tools|] == tools;
    }

    method Invalidate(session: string, connection: string)
      modifies this`bindings
      ensures Of(session) == old(Of(session)) - {connection}
      ensures forall s :: s != session ==> Of(s) == old(Of(s))
      ensures session in bindings ==> Of(session) != map[]
    {
      if session !in bindings {
        return;
      }
      Drop(session, bindings[session] - {connection});
    }

    method UnbindConnection(connection: string)
      modifies this`bindings
      ensures forall s :: Of(s) == old(Of(s)) - {connection}
    {
      var left := bindings.Keys;
      while left != {}
        invariant left <= old(bindings).Keys
        invariant forall s :: Of(s) == if s in left then old(Of(s)) else old(Of(s)) - {connection}
        modifies this`bindings
        decreases left
      {
        var s :| s in left;
        left := left - {s};
        Drop(s, Of(s) - {connection});
      }
    }

    /** The first connection by name whose binding serves the tool; expired bindings met on the way
        leave the table. */
    method LookupResolved(session: string, tool: string, now: int) returns (found: Option<string>)
      modifies this`bindings
      ensures found.None? <==> forall k :: k in old(Of(session)) ==> !W.Serves(old(Of(session))[k], tool, now)
      ensures found.Some? ==>
        && found.value in old(Of(session)) && found.value in Of(session)
        && W.Serves(Of(session)[found.value], tool, now)
        && forall k :: k in old(Of(session)) && W.Serves(old(Of(session))[k], tool, now) && k != found.value ==>
             Below(found.value, k)
      ensures forall k :: k in Of(session) ==> k in old(Of(session)) && Of(session)[k] == old(Of(session))[k]
      ensures forall k :: k in old(Of(session)) && k !in Of(session) ==> old(Of(session))[k].expires <= now
      ensures forall s :: s != session ==> Of(s) == old(Of(s))
    {
      if session !in bindings {
        return None;
      }
      var conns := bindings[session];
      var ids := SortedKeys(conns);
      var gone: set<string> := {};
      for n := 0 to |ids|
        invariant gone <= Elems(ids[..n])
        invariant forall k :: k in gone ==> conns[k].expires <= now
        invariant forall m :: 0 <= m < n ==> !W.Serves(conns[ids[m]], tool, now)
        invariant Of(session) == conns - gone && forall s :: s != session ==> Of(s) == old(Of(s))
        modifies this`bindings
      {
        var id := ids[n];
        assert ids[..n + 1] == ids[..n] + [id];
        var binding := conns[id];
        if binding.expires <= now {
          gone := gone + {id};
          Drop(session, conns - gone);
          continue;
        }
        if tool in binding.tools {
          assert id !in gone;
          LeastServing(conns, ids, n, tool, now);
          return Some(id);
        }
      }
      found := None;
      assert forall k :: k in conns ==> k in ids;
    }

    method Drop(session: string, conns: Bindings)
      modifies this`bindings
      ensures Of(session) == conns && (forall s :: s != session ==> Of(s) == old(Of(s)))
      ensures session in bindings ==> conns != map[]
    {
      bindings := if |conns| == 0 then bindings - {session} else bindings[session := conns];
      assert |conns| == 0 ==> conns == map[];
    }

    method WaitChan(session: string, tool: string) returns (ch: Channel)
      requires Valid()
      modifies this`waiters
      ensures Valid() && WaitKey(session, tool) in waiters && waiters[WaitKey(session, tool)] == ch
      ensures WaitKey(session, tool) in old(waiters) ==> waiters == old(waiters)
      ensures WaitKey(session, tool) !in old(waiters) ==>
        fresh(ch) && !ch.signal && waiters == old(waiters)[WaitKey(session, tool) := ch]
    {
      var key := WaitKey(session, tool);
      if key !in waiters {
        var made := new Channel();
        waiters := waiters[key := made];
      }
      ch := waiters[key];
    }

    /** A channel that somebody else registered meanwhile stays. */
    method DropWaitChan(session: string, tool: string, ch: Channel)
      requires Valid()
      modifies this`waiters
      ensures Valid()
      ensures var key := WaitKey(session, tool);
        waiters == if key in old(waiters) && old(waiters)[key] == ch then old(waiters) - {key} else old(waiters)
    {
      var key := WaitKey(session, tool);
      if key in waiters && waiters[key] == ch { waiters := waiters - {key}; }
    }
  }

  method SortedKeys(conns: Bindings) returns (ids: seq<string>)
    ensures P.Sorted(ids) && P.Distinct(ids) && forall k :: k in ids <==> k in conns
  {
    ids := [];
    var left := conns.Keys;
    while left != {}
      invariant left <= conns.Keys && P.Distinct(ids)
      invariant forall k :: k in ids <==> k in conns.Keys - left
      decreases left
    {
      var k :| k in left;
      assert k !in ids;
      left := left - {k};
      ids := ids + [k];
    }
    ids := P.SortStrings(ids);
  }

  lemma LeastServing(conns: Bindings, ids: seq<string>, n: nat, tool: string, now: int)
    requires P.Sorted(ids) && P.Distinct(ids) && (forall k :: k in ids <==> k in conns) && n < |ids|
    requires forall m :: 0 <= m < n ==> !W.Serves(conns[ids[m]], tool, now)
    ensures forall k :: k in conns && W.Serves(conns[k], tool, now) && k != ids[n] ==> Below(ids[n], k)
  {
    forall k | k in conns && W.Serves(conns[k], tool, now) && k != ids[n] ensures Below(ids[n], k) {
      var m :| 0 <= m < |ids| && ids[m] == k;
      BelowTotal(ids[n], k);
    }
  }

  // ---------------------------------------------------------------- the proxy's loop

  datatype InvokeResult = Ok(text: string) | ContextError | ChannelError

  datatype Signal = Notified | CtxDone | TimerFired

  /** What one round of the loop sees: the lookup, the invocation if there is one, the select if it comes to it. */
  datatype Round = Round(found: Option<string>, invoke: InvokeResult, signal: Signal)

  datatype Answer = Text(text: string) | Error | Unavailable

  /** The round at which the loop ends: a successful or cancelled invocation, or a select that is no notification. */
  predicate Ends(r: Round) {
    (r.found.Some? && !r.invoke.ChannelError?) || ((r.found.None? || r.invoke.ChannelError?) && !r.signal.Notified?)
  }

  /** executeCapabilityTool over the rounds it goes through; waits are the calls of the observer,
      invalidated the connections it withdrew. */
  method ExecuteCapabilityTool(rounds: seq<Round>) returns (answer: Answer, waits: seq<bool>, invalidated: seq<string>, n: nat)
    requires exists k :: 0 <= k < |rounds| && Ends(rounds[k])
    ensures n < |rounds| && Ends(rounds[n]) && (forall k :: 0 <= k < n ==> !Ends(rounds[k]))
    ensures rounds[n].found.Some? && rounds[n].invoke.Ok? ==> answer == Text(rounds[n].invoke.text)
    ensures rounds[n].found.Some? && rounds[n].invoke.ContextError? ==> answer == Error
    ensures rounds[n].found.None? || rounds[n].invoke.ChannelError? ==> answer == Unavailable
    ensures W.Alternates(waits) && |waits| % 2 == 0
    ensures waits == [] <==> n == 0 && rounds[0].found.Some? && !rounds[0].invoke.ChannelError?
    ensures forall c :: c in invalidated <==>
      exists k :: 0 <= k <= n && rounds[k].found == Some(c) && rounds[k].invoke.ChannelError?
  {
    waits, invalidated, n := [], [], 0;
    var waiting := false;
    ghost var last :| 0 <= last < |rounds| && Ends(rounds[last]);
    while true
      invariant n <= last && forall k :: 0 <= k < n ==> !Ends(rounds[k])
      invariant W.Alternates(waits) && (waiting <==> |waits| % 2 == 1)
      invariant waits == [] <==> n == 0
      invariant forall c :: c in invalidated <==>
        exists k :: 0 <= k < n && rounds[k].found == Some(c) && rounds[k].invoke.ChannelError?
      decreases last - n
    {
      var r := rounds[n];
      if r.found.Some? {
        if waiting {
          waiting := false;
          waits := waits + [false];
        }
        match r.invoke {
          case Ok(text) => return Text(text), waits, invalidated, n;
          case ContextError => return Error, waits, invalidated, n;
          case ChannelError => invalidated := invalidated + [r.found.value];
        }
      }
      if !waiting {
        waiting := true;
        waits := waits + [true];
      }
      match r.signal {
        case Notified => n := n + 1;
        case CtxDone =>
          waits := waits + [false];
          return Unavailable, waits, invalidated, n;
        case TimerFired =>
          waits := waits + [false];
          return Unavailable, waits, invalidated, n;
      }
    }
  }
}

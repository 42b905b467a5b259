/** Single flight: for every key the successful starts are exactly its evictions, plus one if the
    table holds it, plus one if its leader has not settled yet; and no caller gets a handle that was
    not started for its own key and input. */
module RequestRegistry {
  import opened RequestModel

  function One(b: bool): nat {
    if b then 1 else 0
  }

  function Successes(log: seq<Entry>, k: Key): nat {
    if log == [] then 0
    else Successes(log[..|log| - 1], k) + One(log[|log| - 1].Started? && log[|log| - 1].key == k)
  }

  function Evictions(log: seq<Entry>, k: Key): nat {
    if log == [] then 0
    else Evictions(log[..|log| - 1], k) + One(log[|log| - 1].Evicted? && log[|log| - 1].key == k)
  }

  predicate Logged(log: seq<Entry>, k: Key, input: string, h: Handle) {
    Started(k, input, h) in log
  }

  predicate NoRepeats(order: seq<Key>) {
    forall m, n :: 0 <= m < n < |order| ==> order[m] != order[n]
  }

  // ---------------------------------------------------------------- the invariant

  /** The table holds exactly the keys of the eviction queue, each once, and not too many. */
  predicate TableOk(table: map<Key, Tracked>, order: seq<Key>) {
    && |order| <= MAX_TRACKED_REQUEST_IDS && NoRepeats(order)
    && (forall k :: k in order ==> k in table) && (forall k :: k in table ==> k in order)
  }

  predicate TrackedOk(r: Registry) {
    forall k :: k in r.table ==> Logged(r.log, k, r.table[k].input, r.table[k].handle)
  }

  predicate PoolOk(r: Registry) {
    forall f :: f in r.pool ==>
      && f < r.nextFlight
      && (r.pool[f].done && r.pool[f].result.FlightOk? ==> Logged(r.log, r.pool[f].key, r.pool[f].input, r.pool[f].result.handle))
  }

  /** A key in flight is not in the table and has one leader, still unsettled. */
  predicate Airborne(r: Registry, k: Key) {
    && k in r.flights && k !in r.table && r.flights[k] in r.pool
    && var f := r.pool[r.flights[k]];
    && f.key == k && f.leader in r.calls && Leads(r.calls[f.leader].phase) && r.calls[f.leader].phase.fid == r.flights[k]
  }

  predicate FlightsOk(r: Registry) {
    forall k :: k in r.flights ==> Airborne(r, k)
  }

  predicate Flies(r: Registry, c: nat, fid: nat) {
    && c in r.calls && fid in r.pool && r.pool[fid].key == r.calls[c].key && r.pool[fid].input == r.calls[c].input
  }

  predicate CallOk(r: Registry, c: nat) {
    c in r.calls &&
    var call := r.calls[c];
    match call.phase
    case Entering => true
    case Joining(fid) => Flies(r, c, fid)
    case Publishing(fid, res) =>
      Flies(r, c, fid) && (res.FlightOk? ==> Logged(r.log, call.key, call.input, res.handle))
    case Returned(out) =>
      out.Got? && call.key.requestId != "" ==> Logged(r.log, call.key, call.input, out.handle)
    case _ =>
      && Flies(r, c, call.phase.fid) && r.pool[call.phase.fid].leader == c
      && call.key in r.flights && r.flights[call.key] == call.phase.fid
      && (call.phase.StartedOk? ==> Logged(r.log, call.key, call.input, call.phase.handle))
  }

  predicate CallsOk(r: Registry) {
    forall c :: c in r.calls ==> CallOk(r, c)
  }

  /** The leader of k started a run that is not yet recorded. */
  predicate Unsettled(r: Registry, k: Key) {
    && k in r.flights && r.flights[k] in r.pool && r.pool[r.flights[k]].leader in r.calls
    && r.calls[r.pool[r.flights[k]].leader].phase.StartedOk?
  }

  ghost predicate CountOk(r: Registry) {
    forall k :: Counted(r, k)
  }

  ghost predicate Counted(r: Registry, k: Key) {
    Successes(r.log, k) == Evictions(r.log, k) + One(k in r.table) + One(Unsettled(r, k))
  }

  ghost predicate Inv(r: Registry) {
    TableOk(r.table, r.order) && TrackedOk(r) && PoolOk(r) && FlightsOk(r) && CallsOk(r) && CountOk(r)
  }

  // ---------------------------------------------------------------- recording

  lemma {:induction false} SuccessesSnoc(log: seq<Entry>, e: Entry, k: Key)
    ensures Successes(log + [e], k) == Successes(log, k) + One(e.Started? && e.key == k)
    ensures Evictions(log + [e], k) == Evictions(log, k) + One(e.Evicted? && e.key == k)
  {
    assert (log + [e])[..|log|] == log;
  }

  /** At most the oldest key goes when a new one is recorded. */
  lemma EvictsOldest(table: map<Key, Tracked>, order: seq<Key>, key: Key)
    requires TableOk(table, order) && key !in table
    ensures EvictedKeys(table, order, key) == if |order| == MAX_TRACKED_REQUEST_IDS then [order[0]] else []
    ensures RecordedOrder(table, order, key) == if |order| == MAX_TRACKED_REQUEST_IDS then order[1..] + [key] else order + [key]
  {}

  /** The keys in the table after key is recorded. */
  predicate Survives(table: map<Key, Tracked>, order: seq<Key>, key: Key, k: Key) {
    k == key || (k in table && !(|order| == MAX_TRACKED_REQUEST_IDS && k == order[0]))
  }

  lemma RecordedMap(table: map<Key, Tracked>, order: seq<Key>, key: Key, t: Tracked)
    requires TableOk(table, order) && key !in table
    ensures RecordedTable(table, order, key, t) ==
      (if |order| == MAX_TRACKED_REQUEST_IDS then table - {order[0]} else table)[key := t]
  {
    EvictsOldest(table, order, key);
    if |order| == MAX_TRACKED_REQUEST_IDS {
      var e := [order[0]];
      assert e[..|e| - 1] == [] && Without(table, []) == table;
      assert Without(table, e) == table - {order[0]};
    } else {
      assert Without(table, []) == table;
    }
  }

  /** The queue without its head, and a new key at its end. */
  lemma Shifted(order: seq<Key>, key: Key)
    requires NoRepeats(order) && key !in order
    ensures NoRepeats(order + [key])
    ensures order != [] ==> NoRepeats(order[1..] + [key]) && order[0] !in order[1..]
    ensures order != [] ==> forall k :: k in order <==> k == order[0] || k in order[1..]
  {
    if order != [] { assert order == [order[0]] + order[1..]; }
  }

  lemma RecordTable(table: map<Key, Tracked>, order: seq<Key>, key: Key, t: Tracked)
    requires TableOk(table, order) && key !in table
    ensures TableOk(RecordedTable(table, order, key, t), RecordedOrder(table, order, key))
    ensures forall k :: k in RecordedTable(table, order, key, t) <==> Survives(table, order, key, k)
    ensures forall k :: k in RecordedTable(table, order, key, t) ==>
      RecordedTable(table, order, key, t)[k] == if k == key then t else table[k]
  {
    EvictsOldest(table, order, key);
    RecordedMap(table, order, key, t);
    Shifted(order, key);
  }

  lemma {:induction false} RecordCounts(r: Registry, key: Key, t: Tracked, k: Key)
    requires TableOk(r.table, r.order) && key !in r.table
    ensures var s := Record(r, key, t);
      && Successes(s.log, k) == Successes(r.log, k)
      && Evictions(s.log, k) + One(k in s.table) == Evictions(r.log, k) + One(k in r.table) + One(k == key)
      && r.log <= s.log
  {
    RecordTable(r.table, r.order, key, t);
    EvictsOldest(r.table, r.order, key);
    if |r.order| == MAX_TRACKED_REQUEST_IDS {
      var e := Evicted(r.order[0]);
      assert [r.order[0]][..0] == [];
      assert EvictionLog([r.order[0]]) == [e];
      SuccessesSnoc(r.log, e, k);
      assert r.order[0] in r.order;
    } else {
      assert r.log + [] == r.log;
    }
  }

  // ---------------------------------------------------------------- steps

  /** A longer log keeps what was logged. */
  lemma LogGrows(r: Registry, s: Registry)
    requires r.log <= s.log
    ensures forall k, input, h :: Logged(r.log, k, input, h) ==> Logged(s.log, k, input, h)
  {}

  /** One call moves between phases that hold no lead; nothing else changes. */
  lemma PhaseInv(r: Registry, c: nat, p: Phase)
    requires Inv(r) && c in r.calls && !Leads(r.calls[c].phase) && !Leads(p)
    requires CallOk(SetPhase(r, c, p), c)
    ensures Inv(SetPhase(r, c, p))
  {
    var s := SetPhase(r, c, p);
    forall d | d in s.calls ensures CallOk(s, d) { assert CallOk(r, d); }
    forall k | k in s.flights ensures Airborne(s, k) { assert Airborne(r, k); }
    forall k ensures Counted(s, k) {
      assert Counted(r, k);
      if k in r.flights { assert Airborne(r, k); }
    }
  }

  lemma ArriveInv(r: Registry, c: nat, key: Key, input: string)
    requires Inv(r) && c !in r.calls
    ensures Inv(r.(calls := r.calls[c := Call(key, input, Entering)]))
  {
    var s := r.(calls := r.calls[c := Call(key, input, Entering)]);
    forall d | d in s.calls ensures CallOk(s, d) { if d != c { assert CallOk(r, d); } }
    forall k | k in s.flights ensures Airborne(s, k) { assert Airborne(r, k); }
    forall k ensures Counted(s, k) {
      assert Counted(r, k);
      if k in r.flights { assert Airborne(r, k); }
    }
  }

  lemma LeadCalls(r: Registry, c: nat, d: nat)
    requires CallsOk(r) && PoolOk(r) && Enabled(r, Look(c)) && r.calls[c].key !in r.table && r.calls[c].key !in r.flights
    requires d in r.calls
    ensures CallOk(Happen(r, Look(c)), d)
  {
    assert CallOk(r, d);
    assert r.nextFlight !in r.pool;
  }

  lemma LeadCounts(r: Registry, c: nat, k: Key)
    requires FlightsOk(r) && PoolOk(r) && CountOk(r) && Enabled(r, Look(c)) && r.calls[c].key !in r.table && r.calls[c].key !in r.flights
    ensures Counted(Happen(r, Look(c)), k)
    ensures k in r.flights ==> Airborne(Happen(r, Look(c)), k)
  {
    assert Counted(r, k);
    assert r.nextFlight !in r.pool;
    if k in r.flights { assert Airborne(r, k); }
  }

  lemma LeadInv(r: Registry, c: nat)
    requires Inv(r) && Enabled(r, Look(c)) && r.calls[c].key !in r.table && r.calls[c].key !in r.flights
    ensures Inv(Happen(r, Look(c)))
  {
    var s := Happen(r, Look(c));
    assert PoolOk(s) && TrackedOk(s);
    forall d | d in s.calls ensures CallOk(s, d) { LeadCalls(r, c, d); }
    forall k | k in s.flights ensures Airborne(s, k) { LeadCounts(r, c, k); }
    forall k ensures Counted(s, k) { LeadCounts(r, c, k); }
  }

  lemma LookInv(r: Registry, c: nat)
    requires Inv(r) && Enabled(r, Look(c))
    ensures Inv(Happen(r, Look(c)))
  {
    var k := r.calls[c].key;
    if k in r.table {
      PhaseInv(r, c, Happen(r, Look(c)).calls[c].phase);
    } else if k in r.flights {
      assert Airborne(r, k);
      PhaseInv(r, c, Happen(r, Look(c)).calls[c].phase);
    } else {
      LeadInv(r, c);
    }
  }

  lemma StartCalls(r: Registry, c: nat, result: StartResult, d: nat)
    requires CallsOk(r) && Enabled(r, StartReturns(c, result)) && d in r.calls
    ensures CallOk(Happen(r, StartReturns(c, result)), d)
  {
    assert CallOk(r, c) && CallOk(r, d);
    LogGrows(r, Happen(r, StartReturns(c, result)));
  }

  lemma StartFlight(r: Registry, c: nat, result: StartResult, k: Key)
    requires FlightsOk(r) && Enabled(r, StartReturns(c, result)) && k in r.flights
    ensures Airborne(Happen(r, StartReturns(c, result)), k)
  {
    assert Airborne(r, k);
  }

  lemma StartUnsettled(r: Registry, c: nat, result: StartResult, k: Key)
    requires FlightsOk(r) && CallOk(r, c) && Enabled(r, StartReturns(c, result))
    ensures Unsettled(Happen(r, StartReturns(c, result)), k)
      <==> Unsettled(r, k) || (k == r.calls[c].key && result.Accepted?)
    ensures k == r.calls[c].key ==> !Unsettled(r, k)
  {
    if k in r.flights { assert Airborne(r, k); }
  }

  lemma StartCounts(r: Registry, c: nat, result: StartResult, k: Key)
    requires FlightsOk(r) && CallOk(r, c) && Counted(r, k) && Enabled(r, StartReturns(c, result))
    ensures Counted(Happen(r, StartReturns(c, result)), k)
  {
    StartUnsettled(r, c, result, k);
    if result.Accepted? { SuccessesSnoc(r.log, Started(r.calls[c].key, r.calls[c].input, result.handle), k); }
  }

  lemma StartInv(r: Registry, c: nat, result: StartResult)
    requires Inv(r) && Enabled(r, StartReturns(c, result))
    ensures Inv(Happen(r, StartReturns(c, result)))
  {
    var s := Happen(r, StartReturns(c, result));
    LogGrows(r, s);
    assert PoolOk(s) && TrackedOk(s);
    forall d | d in s.calls ensures CallOk(s, d) { StartCalls(r, c, result, d); }
    forall k | k in s.flights ensures Airborne(s, k) { StartFlight(r, c, result, k); }
    assert CallOk(r, c);
    forall k ensures Counted(s, k) { assert Counted(r, k); StartCounts(r, c, result, k); }
  }

  /** What settling leaves in table, queue and log. */
  lemma SettledTable(r: Registry, c: nat)
    requires TableOk(r.table, r.order) && FlightsOk(r) && CallsOk(r) && Enabled(r, Settle(c))
    ensures var t := Happen(r, Settle(c));
      && TableOk(t.table, t.order) && r.log <= t.log && t.pool == r.pool && t.nextFlight == r.nextFlight
      && (forall k :: k in t.table ==> k in r.table || k == r.calls[c].key)
  {
    var call := r.calls[c];
    assert CallOk(r, c) && Airborne(r, call.key);
    if call.phase.StartedOk? { RecordShape(r.(flights := r.flights - {call.key}), call.key, Tracked(call.phase.handle, call.input)); }
  }

  lemma RecordShape(r: Registry, key: Key, t: Tracked)
    requires TableOk(r.table, r.order) && key !in r.table
    ensures var s := Record(r, key, t);
      && TableOk(s.table, s.order) && r.log <= s.log && s.pool == r.pool && s.nextFlight == r.nextFlight
      && (forall k :: k in s.table ==> k in r.table || k == key)
  {
    RecordTable(r.table, r.order, key, t);
  }

  lemma SettledTracked(r: Registry, c: nat)
    requires TableOk(r.table, r.order) && FlightsOk(r) && CallsOk(r) && TrackedOk(r) && Enabled(r, Settle(c))
    requires r.log <= Happen(r, Settle(c)).log
    ensures TrackedOk(Happen(r, Settle(c)))
  {
    var call := r.calls[c];
    assert CallOk(r, c) && Airborne(r, call.key);
    LogGrows(r, Happen(r, Settle(c)));
    if call.phase.StartedOk? {
      RecordTracked(r.(flights := r.flights - {call.key}), call.key, Tracked(call.phase.handle, call.input));
    }
  }

  lemma RecordTracked(r: Registry, key: Key, t: Tracked)
    requires TableOk(r.table, r.order) && key !in r.table && TrackedOk(r) && Logged(r.log, key, t.input, t.handle)
    ensures TrackedOk(Record(r, key, t))
  {
    RecordTable(r.table, r.order, key, t);
    LogGrows(r, Record(r, key, t));
  }

  lemma SettledFlight(r: Registry, c: nat, k: Key)
    requires FlightsOk(r) && CallsOk(r) && Enabled(r, Settle(c)) && k in r.flights && k != r.calls[c].key
    requires forall x :: x in Happen(r, Settle(c)).table ==> x in r.table || x == r.calls[c].key
    requires Happen(r, Settle(c)).pool == r.pool
    ensures Airborne(Happen(r, Settle(c)), k)
  {
    assert Airborne(r, k);
    assert CallOk(r, r.pool[r.flights[k]].leader) && CallOk(r, c);
  }

  lemma SettleInv(r: Registry, c: nat)
    requires Inv(r) && Enabled(r, Settle(c))
    ensures Inv(Happen(r, Settle(c)))
  {
    var t := Happen(r, Settle(c));
    SettledTable(r, c);
    SettledTracked(r, c);
    LogGrows(r, t);
    assert PoolOk(t);
    forall d | d in t.calls ensures CallOk(t, d) { SettledCall(r, c, d); }
    forall k | k in t.flights ensures Airborne(t, k) { SettledFlight(r, c, k); }
    forall k ensures Counted(t, k) { assert Counted(r, k); SettledCount(r, c, k); }
  }

  /** Other calls do not notice that c settles. */
  lemma SettledCall(r: Registry, c: nat, d: nat)
    requires CallsOk(r) && Enabled(r, Settle(c)) && d in r.calls && r.log <= Happen(r, Settle(c)).log
    ensures CallOk(Happen(r, Settle(c)), d)
  {
    assert CallOk(r, c) && CallOk(r, d);
    LogGrows(r, Happen(r, Settle(c)));
  }

  /** Settling ends the flight of c's key and no other. */
  lemma SettledUnsettled(r: Registry, c: nat, k: Key)
    requires FlightsOk(r) && CallsOk(r) && Enabled(r, Settle(c))
    ensures var t := Happen(r, Settle(c));
      Unsettled(t, k) <==> Unsettled(r, k) && k != r.calls[c].key
    ensures k == r.calls[c].key ==> (Unsettled(r, k) <==> r.calls[c].phase.StartedOk?)
  {
    assert CallOk(r, c);
    if k in r.flights {
      assert Airborne(r, k);
      assert CallOk(r, r.pool[r.flights[k]].leader);
    }
  }

  lemma SettledCount(r: Registry, c: nat, k: Key)
    requires TableOk(r.table, r.order) && FlightsOk(r) && CallsOk(r) && Counted(r, k) && Enabled(r, Settle(c))
    ensures Counted(Happen(r, Settle(c)), k)
  {
    var call := r.calls[c];
    assert CallOk(r, c) && Airborne(r, call.key);
    SettledUnsettled(r, c, k);
    if call.phase.StartedOk? {
      RecordCounts(r.(flights := r.flights - {call.key}), call.key, Tracked(call.phase.handle, call.input), k);
    }
  }

  lemma PublishCalls(r: Registry, c: nat, d: nat)
    requires CallsOk(r) && Enabled(r, Publish(c)) && d in r.calls
    ensures CallOk(Happen(r, Publish(c)), d)
  {
    assert CallOk(r, c) && CallOk(r, d);
  }

  lemma PublishCounts(r: Registry, c: nat, k: Key)
    requires FlightsOk(r) && CountOk(r) && Enabled(r, Publish(c))
    ensures Counted(Happen(r, Publish(c)), k)
    ensures k in r.flights ==> Airborne(Happen(r, Publish(c)), k)
  {
    assert Counted(r, k);
    if k in r.flights { assert Airborne(r, k); }
  }

  lemma PublishInv(r: Registry, c: nat)
    requires Inv(r) && Enabled(r, Publish(c))
    ensures Inv(Happen(r, Publish(c)))
  {
    var s := Happen(r, Publish(c));
    assert CallOk(r, c);
    assert PoolOk(s) && TrackedOk(s);
    forall d | d in s.calls ensures CallOk(s, d) { PublishCalls(r, c, d); }
    forall k | k in s.flights ensures Airborne(s, k) { PublishCounts(r, c, k); }
    forall k ensures Counted(s, k) { PublishCounts(r, c, k); }
  }

  lemma HappenInv(r: Registry, e: Event)
    requires Inv(r) && Enabled(r, e)
    ensures Inv(Happen(r, e))
  {
    match e {
      case Arrive(c, key, input) => ArriveInv(r, c, key, input);
      case Bare(c, _) => PhaseInv(r, c, Happen(r, e).calls[c].phase);
      case Look(c) => LookInv(r, c);
      case StartReturns(c, result) => StartInv(r, c, result);
      case Settle(c) => SettleInv(r, c);
      case Publish(c) => PublishInv(r, c);
      case Wake(c) =>
        assert CallOk(r, c);
        PhaseInv(r, c, Happen(r, e).calls[c].phase);
    }
  }

  lemma {:induction false} RunInv(states: seq<Registry>, events: seq<Event>, n: nat)
    requires IsRun(states, events) && n < |states|
    ensures Inv(states[n])
  {
    if n > 0 {
      RunInv(states, events, n - 1);
      assert StepAt(states, events, n - 1);
      HappenInv(states[n - 1], events[n - 1]);
    }
  }

  // ---------------------------------------------------------------- what follows

  /** Successful starts for a key number at most one plus its evictions; exactly that many while the
      key is tracked. The table is bounded and shares no key with the flights. */
  lemma {:induction false} SingleFlight(states: seq<Registry>, events: seq<Event>, n: nat, k: Key)
    requires IsRun(states, events) && n < |states|
    ensures var r := states[n];
      && Evictions(r.log, k) <= Successes(r.log, k) <= Evictions(r.log, k) + 1
      && (k in r.table ==> Successes(r.log, k) == Evictions(r.log, k) + 1)
      && (k !in r.table && k !in r.flights ==> Successes(r.log, k) == Evictions(r.log, k))
      && !(k in r.table && k in r.flights)
      && (k in r.table <==> k in r.order) && NoRepeats(r.order) && |r.order| <= MAX_TRACKED_REQUEST_IDS
  {
    RunInv(states, events, n);
    assert Counted(states[n], k);
    if k in states[n].flights { assert Airborne(states[n], k); }
  }

  lemma {:induction false} SoleStart(log: seq<Entry>, k: Key, a: Entry, b: Entry)
    requires Successes(log, k) <= 1 && a in log && b in log
    requires a.Started? && b.Started? && a.key == k && b.key == k
    ensures a == b && Successes(log, k) == 1
  {
    var n := |log| - 1;
    if log[n] == a && log[n] != b {
      HasStart(log[..n], k, b);
    } else if log[n] == b && log[n] != a {
      HasStart(log[..n], k, a);
    } else if log[n] != a {
      SoleStart(log[..n], k, a, b);
    }
  }

  lemma {:induction false} HasStart(log: seq<Entry>, k: Key, a: Entry)
    requires a in log && a.Started? && a.key == k
    ensures Successes(log, k) >= 1
  {
    if log[|log| - 1] != a { HasStart(log[..|log| - 1], k, a); }
  }

  /** Every handle a keyed caller gets was started for its own key and input; while the key was never
      evicted all its callers get the same one. */
  lemma SameHandle(states: seq<Registry>, events: seq<Event>, n: nat, c: nat, d: nat)
    requires IsRun(states, events) && n < |states| && c in states[n].calls && d in states[n].calls
    requires states[n].calls[c].key == states[n].calls[d].key && states[n].calls[c].key.requestId != ""
    requires states[n].calls[c].phase.Returned? && states[n].calls[c].phase.outcome.Got?
    requires states[n].calls[d].phase.Returned? && states[n].calls[d].phase.outcome.Got?
    ensures var r, k := states[n], states[n].calls[c].key;
      && Logged(r.log, k, r.calls[c].input, r.calls[c].phase.outcome.handle)
      && (Evictions(r.log, k) == 0 ==>
            r.calls[c].phase.outcome.handle == r.calls[d].phase.outcome.handle && r.calls[c].input == r.calls[d].input)
  {
    RunInv(states, events, n);
    var r, k := states[n], states[n].calls[c].key;
    assert CallOk(r, c) && CallOk(r, d) && Counted(r, k);
    SingleFlight(states, events, n, k);
    if Evictions(r.log, k) == 0 {
      SoleStart(r.log, k, Started(k, r.calls[c].input, r.calls[c].phase.outcome.handle),
                Started(k, r.calls[d].input, r.calls[d].phase.outcome.handle));
    }
  }

  /** A tracked key keeps its handle and starts nothing until it is evicted. */
  lemma {:induction false} TrackedStays(r: Registry, e: Event, k: Key)
    requires Inv(r) && Enabled(r, e) && k in r.table
    ensures var t := Happen(r, e);
      || Evictions(t.log, k) == Evictions(r.log, k) + 1
      || (Evictions(t.log, k) == Evictions(r.log, k) && k in t.table && t.table[k] == r.table[k])
  {
    if e.StartReturns? && e.result.Accepted? {
      SuccessesSnoc(r.log, Started(r.calls[e.c].key, r.calls[e.c].input, e.result.handle), k);
    } else if e.Settle? {
      SettledTracks(r, e.c, k);
    }
  }

  lemma {:induction false} SettledTracks(r: Registry, c: nat, k: Key)
    requires Inv(r) && Enabled(r, Settle(c)) && k in r.table
    ensures var t := Happen(r, Settle(c));
      || Evictions(t.log, k) == Evictions(r.log, k) + 1
      || (Evictions(t.log, k) == Evictions(r.log, k) && k in t.table && t.table[k] == r.table[k])
  {
    var call := r.calls[c];
    assert CallOk(r, c) && Airborne(r, call.key);
    if call.phase.StartedOk? {
      var tracked := Tracked(call.phase.handle, call.input);
      RecordTable(r.table, r.order, call.key, tracked);
      RecordCounts(r.(flights := r.flights - {call.key}), call.key, tracked, k);
    }
  }

  lemma {:induction false} StableBetweenEvictions(states: seq<Registry>, events: seq<Event>, m: nat, n: nat, k: Key)
    requires IsRun(states, events) && m <= n < |states| && k in states[m].table
    ensures Evictions(states[m].log, k) <= Evictions(states[n].log, k)
    ensures Evictions(states[n].log, k) == Evictions(states[m].log, k) ==>
      && k in states[n].table && states[n].table[k] == states[m].table[k]
      && Successes(states[n].log, k) == Successes(states[m].log, k)
  {
    SingleFlight(states, events, m, k);
    if m < n {
      StableBetweenEvictions(states, events, m, n - 1, k);
      RunInv(states, events, n - 1);
      assert StepAt(states, events, n - 1);
      SingleFlight(states, events, n, k);
      EvictionsGrow(states[n - 1], events[n - 1], k);
      if k in states[n - 1].table { TrackedStays(states[n - 1], events[n - 1], k); }
    }
  }

  lemma {:induction false} EvictionsGrow(r: Registry, e: Event, k: Key)
    requires Inv(r) && Enabled(r, e)
    ensures Evictions(r.log, k) <= Evictions(Happen(r, e).log, k)
  {
    if e.StartReturns? && e.result.Accepted? {
      SuccessesSnoc(r.log, Started(r.calls[e.c].key, r.calls[e.c].input, e.result.handle), k);
    } else if e.Settle? && r.calls[e.c].phase.StartedOk? {
      var call := r.calls[e.c];
      assert CallOk(r, e.c) && Airborne(r, call.key);
      RecordTable(r.table, r.order, call.key, Tracked(call.phase.handle, call.input));
      RecordCounts(r.(flights := r.flights - {call.key}), call.key, Tracked(call.phase.handle, call.input), k);
    }
  }

  /** The first lock section: a different input conflicts at once and starts nothing, the same input is
      answered or joins, and only a key that is neither tracked nor in flight makes a leader. */
  lemma LookDecides(states: seq<Registry>, events: seq<Event>, n: nat, c: nat)
    requires IsRun(states, events) && n < |events| && events[n] == Look(c)
    ensures c in states[n].calls && c in states[n + 1].calls
    ensures var r, t := states[n], states[n + 1];
      var k, input, p := r.calls[c].key, r.calls[c].input, t.calls[c].phase;
      && (p == Returned(Conflict)
          <==> (k in r.table && r.table[k].input != input)
               || (k in r.flights && r.flights[k] in r.pool && r.pool[r.flights[k]].input != input))
      && (p.Starting? <==> k !in r.table && k !in r.flights)
      && t.log == r.log && t.table == r.table && (!p.Starting? ==> t.flights == r.flights)
  {
    RunInv(states, events, n);
    assert StepAt(states, events, n);
    var r, k := states[n], states[n].calls[c].key;
    if k in r.flights { assert Airborne(r, k); }
  }
}

/** Who starts, who joins, and what each caller of Submit is told, in terms of the starts there were. */
module RequestAnswers {
  import opened RequestModel
  import opened RequestRegistry

  // ---------------------------------------------------------------- what was started

  /** The call ran the underlying start, and this came of it. */
  datatype Start = Start(call: nat, result: StartResult)

  ghost function Begun(events: seq<Event>): set<Start> {
    if events == [] then {}
    else
      match events[|events| - 1]
      case StartReturns(c, result) => Begun(events[..|events| - 1]) + {Start(c, result)}
      case Bare(c, result) => Begun(events[..|events| - 1]) + {Start(c, result)}
      case _ => Begun(events[..|events| - 1])
  }

  ghost predicate NoStart(b: set<Start>, c: nat) {
    forall result :: Start(c, result) !in b
  }

  /** A call for this key and input started with this result. */
  ghost predicate StartedFor(r: Registry, b: set<Start>, key: Key, input: string, result: StartResult) {
    exists d :: StartedBy(r, b, d, key, input, result)
  }

  ghost predicate StartedBy(r: Registry, b: set<Start>, d: nat, key: Key, input: string, result: StartResult) {
    d in r.calls && r.calls[d].key == key && r.calls[d].input == input && Start(d, result) in b
  }

  /** What the answer of a call says about who started and what came of it. */
  ghost predicate Told(r: Registry, b: set<Start>, c: nat, out: Outcome)
    requires c in r.calls
  {
    match out
    case Got(h, isNew) =>
      if isNew then Start(c, Accepted(h)) in b
      else NoStart(b, c) && StartedFor(r, b, r.calls[c].key, r.calls[c].input, Accepted(h))
    case StartFailed(isNew) =>
      if isNew then Start(c, Refused) in b
      else NoStart(b, c) && StartedFor(r, b, r.calls[c].key, r.calls[c].input, Refused)
    case Panicked => Start(c, Panic) in b
    case AbortedFlight => NoStart(b, c) && StartedFor(r, b, r.calls[c].key, r.calls[c].input, Panic)
    case Conflict => NoStart(b, c)
  }

  function ResultOf(f: FlightResult): StartResult {
    match f
    case FlightOk(h) => Accepted(h)
    case FlightErr => Refused
    case FlightAborted => Panic
  }

  // ---------------------------------------------------------------- the invariant

  ghost predicate CallTold(r: Registry, b: set<Start>, c: nat)
    requires c in r.calls
  {
    match r.calls[c].phase
    case Entering => NoStart(b, c)
    case Joining(_) => NoStart(b, c)
    case Starting(_) => NoStart(b, c)
    case StartedOk(_, h) => Start(c, Accepted(h)) in b
    case StartedErr(_) => Start(c, Refused) in b
    case Blew(_) => Start(c, Panic) in b
    case Publishing(_, result) => Start(c, ResultOf(result)) in b
    case Returned(out) => Told(r, b, c, out)
  }

  ghost predicate TrackedTold(r: Registry, b: set<Start>, k: Key)
    requires k in r.table
  {
    StartedFor(r, b, k, r.table[k].input, Accepted(r.table[k].handle))
  }

  ghost predicate FlightTold(r: Registry, b: set<Start>, f: nat)
    requires f in r.pool
  {
    r.pool[f].done ==> StartedFor(r, b, r.pool[f].key, r.pool[f].input, ResultOf(r.pool[f].result))
  }

  ghost predicate AllTold(r: Registry, b: set<Start>) {
    && (forall c :: c in r.calls ==> CallTold(r, b, c)) && (forall k :: k in r.table ==> TrackedTold(r, b, k))
    && (forall f :: f in r.pool ==> FlightTold(r, b, f)) && (forall s :: s in b ==> s.call in r.calls)
  }

  /** Calls keep key and input, and starts stay on record. */
  ghost predicate Goes(r: Registry, b: set<Start>, s: Registry, b': set<Start>) {
    && b <= b' && forall c :: c in r.calls ==> c in s.calls && s.calls[c].key == r.calls[c].key && s.calls[c].input == r.calls[c].input
  }

  lemma StartStays(r: Registry, b: set<Start>, s: Registry, b': set<Start>, key: Key, input: string, result: StartResult)
    requires Goes(r, b, s, b') && StartedFor(r, b, key, input, result)
    ensures StartedFor(s, b', key, input, result)
  {
    var d :| StartedBy(r, b, d, key, input, result);
    assert StartedBy(s, b', d, key, input, result);
  }

  ghost function After(b: set<Start>, e: Event): set<Start> {
    match e
    case StartReturns(c, result) => b + {Start(c, result)}
    case Bare(c, result) => b + {Start(c, result)}
    case _ => b
  }

  lemma StepGoes(r: Registry, b: set<Start>, e: Event)
    requires Enabled(r, e)
    ensures Goes(r, b, Happen(r, e), After(b, e))
  {
    hide RecordedTable, RecordedOrder, EvictionLog, EvictedKeys, Answer;
  }

  /** A call other than the one that steps keeps its phase; and a call starts at its own steps alone. */
  lemma OthersKeep(r: Registry, b: set<Start>, e: Event, d: nat)
    requires Enabled(r, e) && AllTold(r, b) && d in r.calls && d != e.c
    ensures d in Happen(r, e).calls && Happen(r, e).calls[d] == r.calls[d]
    ensures CallTold(Happen(r, e), After(b, e), d)
  {
    var s, b' := Happen(r, e), After(b, e);
    StepGoes(r, b, e);
    assert CallTold(r, b, d);
    if r.calls[d].phase.Returned? {
      var key, input := r.calls[d].key, r.calls[d].input;
      match r.calls[d].phase.outcome {
        case Got(h, isNew) => if !isNew { StartStays(r, b, s, b', key, input, Accepted(h)); }
        case StartFailed(isNew) => if !isNew { StartStays(r, b, s, b', key, input, Refused); }
        case AbortedFlight => StartStays(r, b, s, b', key, input, Panic);
        case _ =>
      }
    }
  }

  /** The call that steps. */
  lemma OwnTold(r: Registry, b: set<Start>, e: Event)
    requires Inv(r) && Enabled(r, e) && AllTold(r, b) && (e.Arrive? ==> NoStart(b, e.c))
    ensures e.c in Happen(r, e).calls && CallTold(Happen(r, e), After(b, e), e.c)
  {
    var c := e.c;
    if c in r.calls { assert CallTold(r, b, c); }
    match e {
      case Look(c) => LookTold(r, b, c);
      case Wake(c) => WakeTold(r, b, c);
      case _ =>
        hide Inv, AllTold;
        PlainTold(r, b, e);
    }
  }

  lemma PlainTold(r: Registry, b: set<Start>, e: Event)
    requires Enabled(r, e) && !e.Look? && !e.Wake? && (e.c in r.calls ==> CallTold(r, b, e.c)) && (e.Arrive? ==> NoStart(b, e.c))
    ensures e.c in Happen(r, e).calls && CallTold(Happen(r, e), After(b, e), e.c)
  {
    hide RecordedTable, RecordedOrder, EvictionLog, EvictedKeys, Looked, StartedFor;
  }

  lemma LookTold(r: Registry, b: set<Start>, c: nat)
    requires Inv(r) && Enabled(r, Look(c)) && AllTold(r, b)
    ensures c in Happen(r, Look(c)).calls && CallTold(Happen(r, Look(c)), b, c)
  {
    assert CallTold(r, b, c);
    var k := r.calls[c].key;
    StepGoes(r, b, Look(c));
    if k in r.table && r.table[k].input == r.calls[c].input {
      assert TrackedTold(r, b, k);
      StartStays(r, b, Happen(r, Look(c)), b, k, r.table[k].input, Accepted(r.table[k].handle));
    }
  }

  lemma WakeTold(r: Registry, b: set<Start>, c: nat)
    requires Inv(r) && Enabled(r, Wake(c)) && AllTold(r, b)
    ensures c in Happen(r, Wake(c)).calls && CallTold(Happen(r, Wake(c)), b, c)
  {
    var f := r.calls[c].phase.fid;
    assert CallTold(r, b, c) && CallOk(r, c) && FlightTold(r, b, f);
    StepGoes(r, b, Wake(c));
    StartStays(r, b, Happen(r, Wake(c)), b, r.calls[c].key, r.calls[c].input, ResultOf(r.pool[f].result));
  }

  /** A tracked key was there before, as it is, or has just been settled. */
  lemma TableMoves(r: Registry, e: Event, k: Key)
    requires Inv(r) && Enabled(r, e) && k in Happen(r, e).table
    ensures (k in r.table && Happen(r, e).table[k] == r.table[k])
      || (e.Settle? && e.c in r.calls && r.calls[e.c].phase.StartedOk? && k == r.calls[e.c].key
          && Happen(r, e).table[k] == Tracked(r.calls[e.c].phase.handle, r.calls[e.c].input))
  {
    if e.Settle? && r.calls[e.c].phase.StartedOk? {
      var call := r.calls[e.c];
      assert CallOk(r, e.c) && Airborne(r, call.key) && TableOk(r.table, r.order);
      hide Inv, CallOk, Happen;
      SettleTable(r, e.c);
      RecordTable(r.table, r.order, call.key, Tracked(call.phase.handle, call.input));
    } else {
      hide Inv;
      TableStays(r, e);
    }
  }

  lemma SettleTable(r: Registry, c: nat)
    requires Enabled(r, Settle(c)) && r.calls[c].phase.StartedOk?
    ensures var call := r.calls[c];
      Happen(r, Settle(c)).table == RecordedTable(r.table, r.order, call.key, Tracked(call.phase.handle, call.input))
  {
    hide RecordedTable, RecordedOrder, EvictionLog, EvictedKeys;
  }

  lemma TableStays(r: Registry, e: Event)
    requires Enabled(r, e) && !(e.Settle? && r.calls[e.c].phase.StartedOk?)
    ensures Happen(r, e).table == r.table
  {
    hide Record, Answer;
  }

  lemma TableTold(r: Registry, b: set<Start>, e: Event, k: Key)
    requires Inv(r) && Enabled(r, e) && AllTold(r, b) && k in Happen(r, e).table
    ensures TrackedTold(Happen(r, e), After(b, e), k)
  {
    StepGoes(r, b, e);
    TableMoves(r, e, k);
    var s, b' := Happen(r, e), After(b, e);
    if k in r.table && s.table[k] == r.table[k] {
      assert TrackedTold(r, b, k);
      hide Happen, Inv, AllTold;
      StartStays(r, b, s, b', k, r.table[k].input, Accepted(r.table[k].handle));
    } else {
      assert CallTold(r, b, e.c);
      hide Happen, Inv, AllTold;
      assert StartedBy(s, b', e.c, k, r.calls[e.c].input, Accepted(r.calls[e.c].phase.handle));
    }
  }

  /** A flight is as it was, new, or has just been published. */
  lemma PoolMoves(r: Registry, e: Event, f: nat)
    requires Enabled(r, e) && f in Happen(r, e).pool && f < r.nextFlight
    ensures (f in r.pool && Happen(r, e).pool[f] == r.pool[f]) || !Happen(r, e).pool[f].done
      || (e.Publish? && e.c in r.calls && r.calls[e.c].phase == Publishing(f, Happen(r, e).pool[f].result) && f in r.pool
          && Happen(r, e).pool[f] == r.pool[f].(done := true, result := Happen(r, e).pool[f].result))
  {
    hide RecordedTable, RecordedOrder, EvictionLog, EvictedKeys, Answer;
  }

  lemma PoolTold(r: Registry, b: set<Start>, e: Event, f: nat)
    requires Inv(r) && Enabled(r, e) && AllTold(r, b) && f in Happen(r, e).pool
    ensures FlightTold(Happen(r, e), After(b, e), f)
  {
    StepGoes(r, b, e);
    if f in r.pool {
      assert f < r.nextFlight && FlightTold(r, b, f);
      assert e.Publish? ==> CallOk(r, e.c) && CallTold(r, b, e.c);
      hide Inv, AllTold;
      PoolMoves(r, e, f);
      OldFlight(r, b, e, f);
    }
  }

  lemma OldFlight(r: Registry, b: set<Start>, e: Event, f: nat)
    requires Enabled(r, e) && f in r.pool && f in Happen(r, e).pool && FlightTold(r, b, f)
    requires Goes(r, b, Happen(r, e), After(b, e)) && (e.Publish? ==> CallOk(r, e.c) && CallTold(r, b, e.c))
    requires Happen(r, e).pool[f] == r.pool[f] || !Happen(r, e).pool[f].done
      || (e.Publish? && e.c in r.calls && r.calls[e.c].phase == Publishing(f, Happen(r, e).pool[f].result)
          && Happen(r, e).pool[f] == r.pool[f].(done := true, result := Happen(r, e).pool[f].result))
    ensures FlightTold(Happen(r, e), After(b, e), f)
  {
    var s, b' := Happen(r, e), After(b, e);
    hide Happen;
    if s.pool[f] == r.pool[f] {
      if r.pool[f].done { StartStays(r, b, s, b', r.pool[f].key, r.pool[f].input, ResultOf(r.pool[f].result)); }
    } else if s.pool[f].done {
      assert StartedBy(s, b', e.c, r.pool[f].key, r.pool[f].input, ResultOf(s.pool[f].result));
    }
  }

  lemma StepTold(r: Registry, b: set<Start>, e: Event)
    requires Inv(r) && Enabled(r, e) && AllTold(r, b)
    ensures AllTold(Happen(r, e), After(b, e))
  {
    var s, b' := Happen(r, e), After(b, e);
    StepGoes(r, b, e);
    assert e.Arrive? ==> NoStart(b, e.c);
    OwnTold(r, b, e);
    forall c | c in s.calls ensures CallTold(s, b', c) {
      if c != e.c {
        assert c in r.calls;
        OthersKeep(r, b, e, c);
      }
    }
    forall k | k in s.table ensures TrackedTold(s, b', k) { TableTold(r, b, e, k); }
    forall f | f in s.pool ensures FlightTold(s, b', f) { PoolTold(r, b, e, f); }
  }

  lemma {:induction false} RunTold(states: seq<Registry>, events: seq<Event>, n: nat)
    requires IsRun(states, events) && n < |states|
    ensures AllTold(states[n], Begun(events[..n]))
  {
    if n > 0 {
      assert StepAt(states, events, n - 1);
      RunTold(states, events, n - 1);
      RunInv(states, events, n - 1);
      StepTold(states[n - 1], Begun(events[..n - 1]), events[n - 1]);
      assert events[..n][..n - 1] == events[..n - 1];
    }
  }

  // ---------------------------------------------------------------- what follows

  /** What a caller is told. New means that its own start came to this; whoever is told otherwise started
      nothing and gets what some call for the same key and input came to: its handle, its failure, or
      that its start was aborted. A conflict starts nothing. */
  lemma AnswersTell(states: seq<Registry>, events: seq<Event>, n: nat, c: nat)
    requires IsRun(states, events) && n < |states| && c in states[n].calls && states[n].calls[c].phase.Returned?
    ensures var r, b, out := states[n], Begun(events[..n]), states[n].calls[c].phase.outcome;
      && Told(r, b, c, out)
      && (out.Got? && !out.isNew ==> exists d :: d != c && StartedBy(r, b, d, r.calls[c].key, r.calls[c].input, Accepted(out.handle)))
      && (out.StartFailed? && !out.isNew ==> exists d :: d != c && StartedBy(r, b, d, r.calls[c].key, r.calls[c].input, Refused))
      && (out.AbortedFlight? ==> exists d :: d != c && StartedBy(r, b, d, r.calls[c].key, r.calls[c].input, Panic))
  {
    RunTold(states, events, n);
    var r, b, out := states[n], Begun(events[..n]), states[n].calls[c].phase.outcome;
    assert CallTold(r, b, c);
    var key, input := r.calls[c].key, r.calls[c].input;
    match out {
      case Got(h, isNew) => if !isNew { var d :| StartedBy(r, b, d, key, input, Accepted(h)); assert d != c; }
      case StartFailed(isNew) => if !isNew { var d :| StartedBy(r, b, d, key, input, Refused); assert d != c; }
      case AbortedFlight => var d :| StartedBy(r, b, d, key, input, Panic); assert d != c;
      case _ =>
    }
  }

  // ---------------------------------------------------------------- which keys are tracked

  /** The keys recorded so far, in the order in which their leaders settled. */
  ghost function RecordedKeys(states: seq<Registry>, events: seq<Event>, n: nat): seq<Key>
    requires n <= |events| && |states| > |events|
  {
    if n == 0 then []
    else
      var e, r := events[n - 1], states[n - 1];
      if e.Settle? && e.c in r.calls && r.calls[e.c].phase.StartedOk? then RecordedKeys(states, events, n - 1) + [r.calls[e.c].key]
      else RecordedKeys(states, events, n - 1)
  }

  function LastOf(keys: seq<Key>, n: nat): seq<Key> {
    if |keys| <= n then keys else keys[|keys| - n..]
  }

  lemma LastSnoc(keys: seq<Key>, k: Key, n: nat)
    requires n > 0
    ensures LastOf(keys + [k], n) == (if |LastOf(keys, n)| == n then LastOf(keys, n)[1..] else LastOf(keys, n)) + [k]
  {}

  /** Tracked are the keys recorded last, 4096 of them at most, and the queue holds them in that order. */
  lemma {:induction false} TracksTheLast(states: seq<Registry>, events: seq<Event>, n: nat)
    requires IsRun(states, events) && n < |states|
    ensures states[n].order == LastOf(RecordedKeys(states, events, n), 4096)
    ensures forall k :: k in states[n].table <==> k in LastOf(RecordedKeys(states, events, n), 4096)
  {
    RunInv(states, events, n);
    assert TableOk(states[n].table, states[n].order);
    QueuesTheLast(states, events, n);
  }

  lemma {:induction false} QueuesTheLast(states: seq<Registry>, events: seq<Event>, n: nat)
    requires IsRun(states, events) && n < |states|
    ensures states[n].order == LastOf(RecordedKeys(states, events, n), 4096)
  {
    if n > 0 {
      assert StepAt(states, events, n - 1);
      RunInv(states, events, n - 1);
      var r, e := states[n - 1], events[n - 1];
      OrderMoves(r, e);
      hide Inv, Happen, LastOf;
      QueuesTheLast(states, events, n - 1);
      if e.Settle? && r.calls[e.c].phase.StartedOk? { LastSnoc(RecordedKeys(states, events, n - 1), r.calls[e.c].key, 4096); }
    } else {
      assert LastOf([], 4096) == [];
    }
  }

  lemma OrderMoves(r: Registry, e: Event)
    requires Inv(r) && Enabled(r, e)
    ensures Happen(r, e).order ==
      if e.Settle? && r.calls[e.c].phase.StartedOk?
      then (if |r.order| == 4096 then r.order[1..] else r.order) + [r.calls[e.c].key] else r.order
  {
    if e.Settle? && r.calls[e.c].phase.StartedOk? {
      assert CallOk(r, e.c) && Airborne(r, r.calls[e.c].key);
      EvictsOldest(r.table, r.order, r.calls[e.c].key);
    }
  }

  // ---------------------------------------------------------------- nobody hangs

  /** A leader that returned has published what its joiners wait for. */
  ghost predicate Published(r: Registry) {
    forall f :: f in r.pool ==> HasLeader(r, f)
  }

  ghost predicate HasLeader(r: Registry, f: nat)
    requires f in r.pool
  {
    r.pool[f].leader in r.calls
    && (!r.pool[f].done ==> (Leads(r.calls[r.pool[f].leader].phase) || r.calls[r.pool[f].leader].phase.Publishing?)
                            && r.calls[r.pool[f].leader].phase.fid == f)
  }

  lemma LookPublished(r: Registry, c: nat)
    requires Inv(r) && Published(r) && Enabled(r, Look(c))
    ensures Published(Happen(r, Look(c)))
  {
    var s := Happen(r, Look(c));
    assert r.nextFlight !in r.pool;
    forall f | f in s.pool ensures HasLeader(s, f) { if f in r.pool { assert HasLeader(r, f); } }
  }

  lemma OtherPublished(r: Registry, e: Event)
    requires Enabled(r, e) && Published(r) && !e.Look? && (e.c in r.calls ==> CallOk(r, e.c))
    ensures Published(Happen(r, e))
  {
    hide RecordedTable, RecordedOrder, EvictionLog, EvictedKeys, Answer;
    var s := Happen(r, e);
    forall f | f in s.pool ensures HasLeader(s, f) { assert HasLeader(r, f); }
  }

  lemma {:induction false} RunPublished(states: seq<Registry>, events: seq<Event>, n: nat)
    requires IsRun(states, events) && n < |states|
    ensures Published(states[n])
  {
    if n > 0 {
      assert StepAt(states, events, n - 1);
      RunPublished(states, events, n - 1);
      RunInv(states, events, n - 1);
      var r, e := states[n - 1], events[n - 1];
      if e.Look? { LookPublished(r, e.c); } else {
        assert e.c in r.calls ==> CallOk(r, e.c);
        hide Inv;
        OtherPublished(r, e);
      }
    }
  }

  /** The call can take a step, given that starts return. */
  ghost predicate MaySteps(r: Registry, c: nat) {
    exists e: Event :: e.c == c && Enabled(r, e)
  }

  /** While a call has not returned, it can go on, or its leader can. */
  lemma NobodyHangs(states: seq<Registry>, events: seq<Event>, n: nat, c: nat)
    requires IsRun(states, events) && n < |states| && c in states[n].calls && !states[n].calls[c].phase.Returned?
    ensures MaySteps(states[n], c)
      || (states[n].calls[c].phase.Joining? && states[n].calls[c].phase.fid in states[n].pool
          && MaySteps(states[n], states[n].pool[states[n].calls[c].phase.fid].leader))
  {
    RunPublished(states, events, n);
    RunInv(states, events, n);
    var r := states[n];
    assert CallOk(r, c);
    hide Inv;
    if r.calls[c].phase.Joining? {
      var f := r.calls[c].phase.fid;
      assert HasLeader(r, f);
      if r.pool[f].done { assert Enabled(r, Wake(c)); } else { Steps(r, r.pool[f].leader); }
    } else {
      Steps(r, c);
    }
  }

  lemma Steps(r: Registry, c: nat)
    requires c in r.calls && !r.calls[c].phase.Returned? && !r.calls[c].phase.Joining?
    ensures MaySteps(r, c)
  {
    if r.calls[c].phase.Entering? {
      if r.calls[c].key.requestId == "" { assert Enabled(r, Bare(c, Refused)); } else { assert Enabled(r, Look(c)); }
    } else if r.calls[c].phase.Starting? {
      assert Enabled(r, StartReturns(c, Refused));
    } else if r.calls[c].phase.Publishing? {
      assert Enabled(r, Publish(c));
    } else {
      assert Enabled(r, Settle(c));
    }
  }
}

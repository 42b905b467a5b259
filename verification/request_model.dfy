/** The idempotent submission registry (daemon/internal/agentcontrol/idempotency.go) as steps of any
    number of concurrent calls; each step is one lock section, one underlying start or one wake-up.
    Fingerprints are compared as the inputs themselves. */
module RequestModel {
  const MAX_TRACKED_REQUEST_IDS := 4096

  datatype Key = Key(sessionId: string, requestId: string)
  datatype Handle = Handle(sessionId: string, runId: string)
  datatype Tracked = Tracked(handle: Handle, input: string)

  datatype FlightResult = FlightAborted | FlightOk(handle: Handle) | FlightErr

  /** leader: the call that starts for this flight. */
  datatype Flight = Flight(key: Key, input: string, done: bool, result: FlightResult, leader: nat)

  datatype Outcome = Got(handle: Handle, isNew: bool) | Conflict | StartFailed(isNew: bool) | AbortedFlight | Panicked

  datatype Phase =
    | Entering | Joining(fid: nat) | Starting(fid: nat)
    | StartedOk(fid: nat, handle: Handle) | StartedErr(fid: nat) | Blew(fid: nat)
    | Publishing(fid: nat, result: FlightResult) | Returned(outcome: Outcome)

  datatype Call = Call(key: Key, input: string, phase: Phase)

  /** What happened to keys, in order. */
  datatype Entry = Started(key: Key, input: string, handle: Handle) | Evicted(key: Key)

  datatype Registry = Registry(table: map<Key, Tracked>, order: seq<Key>, flights: map<Key, nat>,
                               pool: map<nat, Flight>, nextFlight: nat, calls: map<nat, Call>, log: seq<Entry>)

  // ---------------------------------------------------------------- recordLocked

  /** The eviction loop: the oldest keys go until the capacity is met. */
  function Overflow(order: seq<Key>): (n: nat)
    ensures n <= |order| && |order| - n <= MAX_TRACKED_REQUEST_IDS
    ensures |order| <= MAX_TRACKED_REQUEST_IDS ==> n == 0
    ensures |order| == MAX_TRACKED_REQUEST_IDS + 1 ==> n == 1
  {
    if |order| > MAX_TRACKED_REQUEST_IDS then 1 + Overflow(order[1..]) else 0
  }

  function Without(table: map<Key, Tracked>, keys: seq<Key>): map<Key, Tracked> {
    if keys == [] then table else Without(table, keys[..|keys| - 1]) - {keys[|keys| - 1]}
  }

  function Queue(table: map<Key, Tracked>, order: seq<Key>, key: Key): seq<Key> {
    if key in table then order else order + [key]
  }

  function EvictedKeys(table: map<Key, Tracked>, order: seq<Key>, key: Key): seq<Key> {
    var q := Queue(table, order, key);
    q[..Overflow(q)]
  }

  function RecordedOrder(table: map<Key, Tracked>, order: seq<Key>, key: Key): seq<Key> {
    if key in table then order
    else
      var q := Queue(table, order, key);
      q[Overflow(q)..]
  }

  function RecordedTable(table: map<Key, Tracked>, order: seq<Key>, key: Key, t: Tracked): map<Key, Tracked> {
    if key in table then table[key := t]
    else Without(table, EvictedKeys(table, order, key))[key := t]
  }

  function EvictionLog(keys: seq<Key>): seq<Entry> {
    if keys == [] then [] else EvictionLog(keys[..|keys| - 1]) + [Evicted(keys[|keys| - 1])]
  }

  function Record(r: Registry, key: Key, t: Tracked): Registry {
    r.(table := RecordedTable(r.table, r.order, key, t),
       order := RecordedOrder(r.table, r.order, key),
       log := r.log + if key in r.table then [] else EvictionLog(EvictedKeys(r.table, r.order, key)))
  }

  // ---------------------------------------------------------------- steps

  datatype StartResult = Accepted(handle: Handle) | Refused | Panic

  datatype Event =
    | Arrive(c: nat, key: Key, input: string)
    | Bare(c: nat, result: StartResult)
    | Look(c: nat)
    | StartReturns(c: nat, result: StartResult)
    | Settle(c: nat)
    | Publish(c: nat)
    | Wake(c: nat)

  predicate Leads(p: Phase) {
    p.Starting? || p.StartedOk? || p.StartedErr? || p.Blew?
  }

  predicate Enabled(r: Registry, e: Event) {
    match e
    case Arrive(c, _, _) => c !in r.calls
    case Bare(c, _) => c in r.calls && r.calls[c].phase.Entering? && r.calls[c].key.requestId == ""
    case Look(c) => c in r.calls && r.calls[c].phase.Entering? && r.calls[c].key.requestId != ""
    case StartReturns(c, _) => c in r.calls && r.calls[c].phase.Starting?
    case Settle(c) =>
      c in r.calls && (r.calls[c].phase.StartedOk? || r.calls[c].phase.StartedErr? || r.calls[c].phase.Blew?)
    case Publish(c) => c in r.calls && r.calls[c].phase.Publishing?
    case Wake(c) =>
      && c in r.calls && r.calls[c].phase.Joining?
      && r.calls[c].phase.fid in r.pool && r.pool[r.calls[c].phase.fid].done
  }

  function SetPhase(r: Registry, c: nat, p: Phase): Registry
    requires c in r.calls
  {
    r.(calls := r.calls[c := r.calls[c].(phase := p)])
  }

  /** The first lock section of Submit. */
  function Looked(r: Registry, c: nat): Registry
    requires c in r.calls
  {
    var k, input := r.calls[c].key, r.calls[c].input;
    if k in r.table then
      SetPhase(r, c, Returned(if r.table[k].input != input then Conflict else Got(r.table[k].handle, false)))
    else if k in r.flights && r.flights[k] in r.pool then
      SetPhase(r, c, if r.pool[r.flights[k]].input != input then Returned(Conflict) else Joining(r.flights[k]))
    else
      SetPhase(r, c, Starting(r.nextFlight))
        .(flights := r.flights[k := r.nextFlight],
          pool := r.pool[r.nextFlight := Flight(k, input, false, FlightAborted, c)],
          nextFlight := r.nextFlight + 1)
  }

  function Answer(f: FlightResult, leads: bool): Outcome {
    match f
    case FlightOk(h) => Got(h, leads)
    case FlightErr => StartFailed(leads)
    case FlightAborted => if leads then Panicked else AbortedFlight
  }

  function Happen(r: Registry, e: Event): Registry
    requires Enabled(r, e)
  {
    match e
    case Arrive(c, key, input) => r.(calls := r.calls[c := Call(key, input, Entering)])
    case Bare(c, result) =>
      SetPhase(r, c, Returned(match result
                              case Accepted(h) => Got(h, true)
                              case Refused => StartFailed(true)
                              case Panic => Panicked))
    case Look(c) => Looked(r, c)
    case StartReturns(c, result) =>
      var call := r.calls[c];
      (match result
       case Accepted(h) =>
         SetPhase(r, c, StartedOk(call.phase.fid, h)).(log := r.log + [Started(call.key, call.input, h)])
       case Refused => SetPhase(r, c, StartedErr(call.phase.fid))
       case Panic => SetPhase(r, c, Blew(call.phase.fid)))
    case Settle(c) =>
      var call := r.calls[c];
      var s := r.(flights := r.flights - {call.key});
      (match call.phase
       case StartedOk(fid, h) =>
         SetPhase(Record(s, call.key, Tracked(h, call.input)), c, Publishing(fid, FlightOk(h)))
       case StartedErr(fid) => SetPhase(s, c, Publishing(fid, FlightErr))
       case Blew(fid) => SetPhase(s, c, Publishing(fid, FlightAborted))
       case _ => s)
    case Publish(c) =>
      var p := r.calls[c].phase;
      var s := SetPhase(r, c, Returned(Answer(p.result, true)));
      if p.fid in r.pool then s.(pool := r.pool[p.fid := r.pool[p.fid].(done := true, result := p.result)]) else s
    case Wake(c) => SetPhase(r, c, Returned(Answer(r.pool[r.calls[c].phase.fid].result, false)))
  }

  ghost predicate StepAt(states: seq<Registry>, events: seq<Event>, n: nat) {
    n < |events| && n + 1 < |states| && Enabled(states[n], events[n]) && states[n + 1] == Happen(states[n], events[n])
  }

  function NewRegistry(): Registry {
    Registry(map[], [], map[], map[], 0, map[], [])
  }

  ghost predicate IsRun(states: seq<Registry>, events: seq<Event>) {
    |states| == |events| + 1 && states[0] == NewRegistry() && forall n :: 0 <= n < |events| ==> StepAt(states, events, n)
  }
}

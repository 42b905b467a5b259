/** The session event hub of ai-runtime/agent/event_hub.go as a state machine: every
    public operation runs under one mutex and is one step; a subscriber's pump goroutine
    takes its steps in between. Whether a journal append or read succeeds, and the order
    in which a map is walked, are parameters of the step. */
module HubModel {
  import opened Events

  const DELTA_FLUSH_BYTES: nat := 4096
  const SUBSCRIBER_BUFFER: nat := 256

  datatype Integrity = Complete | Unknown | Incomplete

  datatype PendingDelta = PendingDelta(run: string, fromSeq: nat, toSeq: nat, parts: seq<DeltaPart>, bytes: nat)

  /** One subscription: its live channel, the state of its pump, the channel handed to the
      consumer (`ch`) and what the consumer took out of it so far (`received`). */
  datatype Stream = Stream(
    cursor: nat,
    watermark: nat,
    replay: seq<SessionEvent>,
    sent: nat,
    live: seq<SessionEvent>,
    disconnected: bool,
    held: Option<SessionEvent>,
    lastSeq: nat,
    ch: seq<SessionEvent>,
    received: seq<SessionEvent>,
    cancelled: bool,
    exited: bool)

  /** `subs` are the registered subscriptions, `streams` all there ever were. `hist` (every
      event broadcast or already persisted) and `lost` (events of a batch whose append
      failed) are history variables: nothing reads them but the proofs. */
  datatype Hub = Hub(
    journaled: bool,
    nextSeq: nat,
    earliest: nat,
    latest: nat,
    integrity: Integrity,
    subs: set<nat>,
    nextSubId: nat,
    streams: map<nat, Stream>,
    log: seq<EventRecord>,
    curRun: string,
    deltaBuf: map<EventType, PendingDelta>,
    timerArmed: bool,
    closed: bool,
    hist: seq<SessionEvent>,
    lost: set<SessionEvent>)

  // ---------------------------------------------------------------- start

  function MinSeq(log: seq<EventRecord>): nat
    requires log != []
  {
    var last := log[|log| - 1].seqNo;
    if |log| == 1 then last
    else
      var m := MinSeq(log[..|log| - 1]);
      if last < m then last else m
  }

  function MaxSeq(log: seq<EventRecord>): nat
    requires log != []
  {
    var last := log[|log| - 1].seqNo;
    if |log| == 1 then last
    else
      var m := MaxSeq(log[..|log| - 1]);
      if last > m then last else m
  }

  /** NewEventHub over the retained history `log`; None is a hub without a journal. */
  function NewHub(journal: Option<seq<EventRecord>>): Hub {
    match journal
    case None =>
      Hub(false, 1, 0, 0, Complete, {}, 0, map[], [], "", map[], false, false, [], {})
    case Some(log) =>
      if log == [] then
        Hub(true, 1, 0, 0, Complete, {}, 0, map[], [], "", map[], false, false, [], {})
      else
        Hub(true, MaxSeq(log) + 1, MinSeq(log), MaxSeq(log), Unknown, {}, 0, map[], log, "", map[],
            false, false, SortBySeq(ExpandAll(log)), {})
  }

  // ---------------------------------------------------------------- broadcast

  function Offer(s: Stream, ev: SessionEvent): Stream {
    if |s.live| < SUBSCRIBER_BUFFER then s.(live := s.live + [ev]) else s.(disconnected := true)
  }

  predicate Wants(s: Stream, ev: SessionEvent) {
    ev.seqNo > s.watermark
  }

  function OfferAll(streams: map<nat, Stream>, subs: set<nat>, ev: SessionEvent): map<nat, Stream> {
    map id | id in streams :: if id in subs && Wants(streams[id], ev) then Offer(streams[id], ev) else streams[id]
  }

  predicate Overflows(streams: map<nat, Stream>, id: nat, ev: SessionEvent) {
    id in streams && Wants(streams[id], ev) && |streams[id].live| >= SUBSCRIBER_BUFFER
  }

  function StillRegistered(streams: map<nat, Stream>, subs: set<nat>, ev: SessionEvent): set<nat> {
    set id | id in subs && !Overflows(streams, id, ev)
  }

  /** fanOutLocked: never blocks; a subscriber whose buffer is full is dropped. */
  function FanOut(h: Hub, ev: SessionEvent): Hub {
    h.(streams := OfferAll(h.streams, h.subs, ev),
       subs := StillRegistered(h.streams, h.subs, ev),
       hist := h.hist + [ev])
  }

  // ---------------------------------------------------------------- delta batches

  function BucketEvents(typ: EventType, b: PendingDelta): seq<SessionEvent> {
    PartsToEvents(b.run, typ, b.parts)
  }

  function FlushType(h: Hub, typ: EventType, fails: set<EventType>): Hub {
    if typ !in h.deltaBuf then h
    else
      var b := h.deltaBuf[typ];
      var rest := h.(deltaBuf := h.deltaBuf - {typ});
      if typ in fails then
        rest.(integrity := Incomplete, lost := h.lost + set e | e in BucketEvents(typ, b))
      else
        rest.(log := h.log + [EventRecord(b.run, typ, b.toSeq, b.fromSeq, Batch(b.parts))])
  }

  function FlushTypes(h: Hub, order: seq<EventType>, fails: set<EventType>): Hub {
    if order == [] then h
    else FlushType(FlushTypes(h, order[..|order| - 1], fails), order[|order| - 1], fails)
  }

  /** `order` lists the buckets in the order the map was walked. */
  ghost predicate Walks(h: Hub, order: seq<EventType>) {
    forall t :: t in h.deltaBuf ==> t in order
  }

  function FlushAll(h: Hub, order: seq<EventType>, fails: set<EventType>): Hub {
    FlushTypes(h, order, fails).(timerArmed := false)
  }

  function Bucketed(h: Hub, ev: SessionEvent, size: nat): PendingDelta {
    var b := if ev.typ in h.deltaBuf then h.deltaBuf[ev.typ] else PendingDelta(ev.run, ev.seqNo, 0, [], 0);
    b.(toSeq := ev.seqNo, parts := b.parts + [DeltaPart(ev.seqNo, ev.payload)], bytes := b.bytes + size)
  }

  function PutDelta(h: Hub, ev: SessionEvent, size: nat): Hub {
    h.(deltaBuf := h.deltaBuf[ev.typ := Bucketed(h, ev, size)], timerArmed := h.timerArmed || ev.typ !in h.deltaBuf)
  }

  function BufferDelta(h: Hub, ev: SessionEvent, size: nat, fails: set<EventType>): Hub {
    var h1 := PutDelta(h, ev, size);
    if Bucketed(h, ev, size).bytes >= DELTA_FLUSH_BYTES then
      var h2 := FlushType(h1, ev.typ, fails);
      if h2.deltaBuf == map[] then h2.(timerArmed := false) else h2
    else h1
  }

  /** The hub once an event got its number and went out. */
  function Broadcast(h: Hub, ev: SessionEvent): Hub {
    FanOut(h.(nextSeq := h.nextSeq + 1, latest := ev.seqNo), ev)
  }

  // ---------------------------------------------------------------- operations

  datatype PublishOutcome = Published | PublishClosed | AppendFailed

  function Resolve(h: Hub, run: string): string {
    if run == "" then h.curRun else run
  }

  function Publish(h: Hub, run: string, typ: EventType, payload: Payload, size: nat, fails: set<EventType>)
    : (Hub, PublishOutcome)
  {
    if h.closed then (h, PublishClosed)
    else
      var ev := SessionEvent(Resolve(h, run), h.nextSeq, typ, payload);
      if IsKeyEvent(typ) then
        if h.journaled && typ in fails then (h.(nextSeq := h.nextSeq + 1, integrity := Incomplete), AppendFailed)
        else if h.journaled then
          (Broadcast(h.(log := h.log + [EventRecord(ev.run, typ, ev.seqNo, 0, payload)]), ev), Published)
        else (Broadcast(h, ev), Published)
      else if h.journaled then (BufferDelta(Broadcast(h, ev), ev, size, fails), Published)
      else (Broadcast(h, ev), Published)
  }

  function BeginRun(h: Hub, run: string, order: seq<EventType>, fails: set<EventType>): Hub {
    if h.closed then h else FlushAll(h, order, fails).(curRun := run)
  }

  function EndRun(h: Hub, order: seq<EventType>, fails: set<EventType>): Hub {
    if h.closed then h else FlushAll(h, order, fails).(curRun := "")
  }

  function TimerFires(h: Hub, order: seq<EventType>, fails: set<EventType>): Hub {
    if h.closed then h else FlushAll(h, order, fails)
  }

  function DisconnectAll(streams: map<nat, Stream>, subs: set<nat>): map<nat, Stream> {
    map id | id in streams :: if id in subs then streams[id].(disconnected := true) else streams[id]
  }

  function Close(h: Hub, order: seq<EventType>, fails: set<EventType>): Hub {
    if h.closed then h
    else FlushAll(h.(closed := true), order, fails).(subs := {}, streams := DisconnectAll(h.streams, h.subs))
  }

  datatype SubscribeOutcome = Subscribed(id: nat) | SubscribeClosed | CursorExpired | ReadFailed

  predicate Expired(cursor: nat, earliest: nat) {
    cursor != 0 && cursor + 1 < earliest
  }

  predicate Rejects(h: Hub, cursor: nat) {
    cursor > h.latest || Expired(cursor, h.earliest)
  }

  function Replay(log: seq<EventRecord>, cursor: nat): seq<SessionEvent> {
    SortBySeq(After(ExpandAll(ReadEvents(log, cursor)), cursor))
  }

  function Register(h: Hub, cursor: nat, replay: seq<SessionEvent>): Hub {
    h.(subs := h.subs + {h.nextSubId},
       nextSubId := h.nextSubId + 1,
       streams := h.streams[h.nextSubId :=
         Stream(cursor, h.latest, replay, 0, [], false, None, 0, [], [], false, false)])
  }

  function Subscribe(h: Hub, cursor: nat, order: seq<EventType>, fails: set<EventType>, readOk: bool)
    : (Hub, SubscribeOutcome)
  {
    if h.closed then (h, SubscribeClosed)
    else if Rejects(h, cursor) then (h, CursorExpired)
    else if !h.journaled then (Register(h, cursor, []), Subscribed(h.nextSubId))
    else
      var h1 := FlushAll(h, order, fails);
      if !readOk then (h1, ReadFailed)
      else
        var recs := ReadEvents(h1.log, cursor);
        var h2 := if AnyDamaged(recs) then h1.(integrity := Incomplete) else h1;
        (Register(h2, cursor, Replay(h1.log, cursor)), Subscribed(h.nextSubId))
  }

  // ---------------------------------------------------------------- pump and consumer

  function HeldSeq(s: Stream): seq<SessionEvent> {
    match s.held
    case None => []
    case Some(e) => [e]
  }

  /** pumpEvents phase one: send the next replayed event. */
  function SendReplay(s: Stream): Stream
    requires s.sent < |s.replay|
  {
    var ev := s.replay[s.sent];
    s.(ch := s.ch + [ev], sent := s.sent + 1, lastSeq := ev.seqNo)
  }

  /** Phase two: take the next live event, dropping it when already delivered. */
  function TakeLive(s: Stream): Stream
    requires s.live != []
  {
    if s.live[0].seqNo <= s.lastSeq then s.(live := s.live[1..])
    else s.(live := s.live[1..], held := Some(s.live[0]))
  }

  function SendHeld(s: Stream): Stream
    requires s.held.Some?
  {
    s.(ch := s.ch + [s.held.value], held := None, lastSeq := s.held.value.seqNo)
  }

  predicate MayExit(h: Hub, s: Stream) {
    || s.cancelled
    || (s.sent < |s.replay| && (h.closed || s.disconnected))
    || (s.sent == |s.replay| && s.held.Some? && s.disconnected)
    || (s.sent == |s.replay| && s.held.None? && s.live == [] && s.disconnected)
  }

  datatype Step =
    | DoPublish(run: string, typ: EventType, payload: Payload, size: nat, fails: set<EventType>)
    | DoBeginRun(run: string, order: seq<EventType>, fails: set<EventType>)
    | DoEndRun(order: seq<EventType>, fails: set<EventType>)
    | DoTimer(order: seq<EventType>, fails: set<EventType>)
    | DoClose(order: seq<EventType>, fails: set<EventType>)
    | DoSubscribe(cursor: nat, order: seq<EventType>, fails: set<EventType>, readOk: bool)
    | PumpReplay(id: nat)
    | PumpTake(id: nat)
    | PumpSend(id: nat)
    | PumpExit(id: nat)
    | Cancel(id: nat)
    | Consume(id: nat)

  predicate PumpRuns(h: Hub, id: nat) {
    id in h.streams && !h.streams[id].exited
  }

  ghost predicate Enabled(h: Hub, step: Step) {
    match step
    case DoPublish(_, _, _, _, _) => true
    case DoBeginRun(_, order, _) => Walks(h, order)
    case DoEndRun(order, _) => Walks(h, order)
    case DoTimer(order, _) => Walks(h, order)
    case DoClose(order, _) => Walks(h, order)
    case DoSubscribe(_, order, _, _) => Walks(h, order)
    case PumpReplay(id) =>
      PumpRuns(h, id) && h.streams[id].sent < |h.streams[id].replay| && |h.streams[id].ch| < SUBSCRIBER_BUFFER
    case PumpTake(id) =>
      PumpRuns(h, id) && h.streams[id].sent == |h.streams[id].replay| && h.streams[id].held.None? && h.streams[id].live != []
    case PumpSend(id) =>
      PumpRuns(h, id) && h.streams[id].held.Some? && |h.streams[id].ch| < SUBSCRIBER_BUFFER
    case PumpExit(id) => PumpRuns(h, id) && MayExit(h, h.streams[id])
    case Cancel(id) => id in h.streams
    case Consume(id) => id in h.streams && h.streams[id].ch != []
  }

  function SetStream(h: Hub, id: nat, s: Stream): Hub {
    h.(streams := h.streams[id := s])
  }

  ghost function Apply(h: Hub, step: Step): Hub
    requires Enabled(h, step)
  {
    match step
    case DoPublish(run, typ, payload, size, fails) => Publish(h, run, typ, payload, size, fails).0
    case DoBeginRun(run, order, fails) => BeginRun(h, run, order, fails)
    case DoEndRun(order, fails) => EndRun(h, order, fails)
    case DoTimer(order, fails) => TimerFires(h, order, fails)
    case DoClose(order, fails) => Close(h, order, fails)
    case DoSubscribe(cursor, order, fails, readOk) => Subscribe(h, cursor, order, fails, readOk).0
    case PumpReplay(id) => SetStream(h, id, SendReplay(h.streams[id]))
    case PumpTake(id) => SetStream(h, id, TakeLive(h.streams[id]))
    case PumpSend(id) => SetStream(h, id, SendHeld(h.streams[id]))
    case PumpExit(id) => SetStream(h, id, h.streams[id].(exited := true)).(subs := h.subs - {id})
    case Cancel(id) => SetStream(h, id, h.streams[id].(cancelled := true))
    case Consume(id) =>
      var s := h.streams[id];
      SetStream(h, id, s.(ch := s.ch[1..], received := s.received + [s.ch[0]]))
  }

  /** Every interleaving is a sequence of steps; a step that is not enabled does nothing. */
  ghost function Run(h: Hub, steps: seq<Step>): Hub {
    if steps == [] then h
    else
      var h1 := Run(h, steps[..|steps| - 1]);
      var step := steps[|steps| - 1];
      if Enabled(h1, step) then Apply(h1, step) else h1
  }

  // ---------------------------------------------------------------- whose bucket

  /** A delta finds its bucket free or opened by its own run. */
  ghost predicate SameRun(h: Hub, run: string, typ: EventType) {
    IsKeyEvent(typ) || typ !in h.deltaBuf || h.deltaBuf[typ].run == Resolve(h, run)
  }

  ghost predicate Owned(h: Hub, step: Step) {
    step.DoPublish? ==> SameRun(h, step.run, step.typ)
  }

  /** No delta joins a foreign bucket. The hub itself does not see to that; HubJournal shows that the
      callers do, and HubLabels what holds without it. */
  ghost predicate OwnedRun(h: Hub, steps: seq<Step>) {
    steps == [] ||
      (OwnedRun(h, steps[..|steps| - 1]) && Owned(Run(h, steps[..|steps| - 1]), steps[|steps| - 1]))
  }
}

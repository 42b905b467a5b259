/** The hub without run labels. Taking every run id out of a hub is a simulation: each step of the hub
    is a step of the bare one, where no bucket is foreign. So what HubTheorems promises holds of any
    publishers whatever, up to the run a replayed delta is attributed to. */
module HubLabels {
  import opened Events
  import opened HubModel
  import opened HubDelivery
  import opened HubTheorems

  // ---------------------------------------------------------------- taking the labels out

  function BareEvent(e: SessionEvent): SessionEvent {
    e.(run := "")
  }

  function BareAll(s: seq<SessionEvent>): (r: seq<SessionEvent>)
    ensures |r| == |s| && forall i :: 0 <= i < |s| ==> r[i] == BareEvent(s[i])
  {
    seq(|s|, i requires 0 <= i < |s| => BareEvent(s[i]))
  }

  function BareRecord(rec: EventRecord): EventRecord {
    rec.(run := "")
  }

  function BareLog(log: seq<EventRecord>): (r: seq<EventRecord>)
    ensures |r| == |log| && forall i :: 0 <= i < |log| ==> r[i] == BareRecord(log[i])
  {
    seq(|log|, i requires 0 <= i < |log| => BareRecord(log[i]))
  }

  function BareBuf(buf: map<EventType, PendingDelta>): map<EventType, PendingDelta> {
    map t | t in buf :: buf[t].(run := "")
  }

  function BareStream(s: Stream): Stream {
    s.(replay := BareAll(s.replay), live := BareAll(s.live), ch := BareAll(s.ch), received := BareAll(s.received),
       held := match s.held case None => None case Some(e) => Some(BareEvent(e)))
  }

  function BareStreams(streams: map<nat, Stream>): map<nat, Stream> {
    map id | id in streams :: BareStream(streams[id])
  }

  function BareSet(lost: set<SessionEvent>): set<SessionEvent> {
    set e | e in lost :: BareEvent(e)
  }

  function Bare(h: Hub): Hub {
    h.(streams := BareStreams(h.streams), log := BareLog(h.log), curRun := "", deltaBuf := BareBuf(h.deltaBuf),
       hist := BareAll(h.hist), lost := BareSet(h.lost))
  }

  function BareStep(step: Step): Step {
    match step
    case DoPublish(_, typ, payload, size, fails) => DoPublish("", typ, payload, size, fails)
    case DoBeginRun(_, order, fails) => DoBeginRun("", order, fails)
    case _ => step
  }

  function BareSteps(steps: seq<Step>): (r: seq<Step>)
    ensures |r| == |steps| && forall i :: 0 <= i < |steps| ==> r[i] == BareStep(steps[i])
  {
    seq(|steps|, i requires 0 <= i < |steps| => BareStep(steps[i]))
  }

  // ---------------------------------------------------------------- sequences

  lemma BareConcat(a: seq<SessionEvent>, b: seq<SessionEvent>)
    ensures BareAll(a + b) == BareAll(a) + BareAll(b)
  {}

  lemma BareSnoc(log: seq<EventRecord>, rec: EventRecord)
    ensures BareLog(log + [rec]) == BareLog(log) + [BareRecord(rec)]
  {}

  lemma BareInit(log: seq<EventRecord>)
    requires log != []
    ensures BareLog(log)[..|log| - 1] == BareLog(log[..|log| - 1])
  {}

  lemma BareEventsInit(s: seq<SessionEvent>)
    requires s != []
    ensures BareAll(s)[..|s| - 1] == BareAll(s[..|s| - 1])
  {}

  lemma BareExpand(rec: EventRecord)
    ensures Expand(BareRecord(rec)) == BareAll(Expand(rec)) && Damaged(BareRecord(rec)) == Damaged(rec)
  {}

  lemma {:induction false} BareExpandAll(log: seq<EventRecord>)
    ensures ExpandAll(BareLog(log)) == BareAll(ExpandAll(log))
  {
    if log != [] {
      BareInit(log);
      BareExpandAll(log[..|log| - 1]);
      BareExpand(log[|log| - 1]);
      BareConcat(ExpandAll(log[..|log| - 1]), Expand(log[|log| - 1]));
    }
  }

  lemma {:induction false} BareRead(log: seq<EventRecord>, c: nat)
    ensures ReadEvents(BareLog(log), c) == BareLog(ReadEvents(log, c))
  {
    if log != [] {
      BareInit(log);
      BareRead(log[..|log| - 1], c);
      BareSnoc(ReadEvents(log[..|log| - 1], c), log[|log| - 1]);
    }
  }

  lemma {:induction false} BareDamaged(log: seq<EventRecord>)
    ensures AnyDamaged(BareLog(log)) == AnyDamaged(log)
  {
    if log != [] {
      BareInit(log);
      BareDamaged(log[..|log| - 1]);
      BareExpand(log[|log| - 1]);
    }
  }

  lemma {:induction false} BareAfter(s: seq<SessionEvent>, c: nat)
    ensures After(BareAll(s), c) == BareAll(After(s, c))
  {
    if s != [] {
      BareEventsInit(s);
      BareAfter(s[..|s| - 1], c);
      BareConcat(After(s[..|s| - 1], c), [s[|s| - 1]]);
    }
  }

  lemma {:induction false} BareInsert(s: seq<SessionEvent>, e: SessionEvent)
    ensures Insert(BareAll(s), BareEvent(e)) == BareAll(Insert(s, e))
  {
    if s == [] || s[|s| - 1].seqNo <= e.seqNo {
      BareConcat(s, [e]);
    } else {
      BareEventsInit(s);
      BareInsert(s[..|s| - 1], e);
      BareConcat(Insert(s[..|s| - 1], e), [s[|s| - 1]]);
    }
  }

  lemma {:induction false} BareSort(s: seq<SessionEvent>)
    ensures SortBySeq(BareAll(s)) == BareAll(SortBySeq(s))
  {
    if s != [] {
      BareEventsInit(s);
      BareSort(s[..|s| - 1]);
      BareInsert(SortBySeq(s[..|s| - 1]), s[|s| - 1]);
    }
  }

  lemma BareReplay(log: seq<EventRecord>, cursor: nat)
    ensures Replay(BareLog(log), cursor) == BareAll(Replay(log, cursor))
  {
    BareRead(log, cursor);
    BareExpandAll(ReadEvents(log, cursor));
    BareAfter(ExpandAll(ReadEvents(log, cursor)), cursor);
    BareSort(After(ExpandAll(ReadEvents(log, cursor)), cursor));
  }

  // ---------------------------------------------------------------- each operation

  lemma BareOffer(s: Stream, ev: SessionEvent)
    ensures BareStream(Offer(s, ev)) == Offer(BareStream(s), BareEvent(ev))
  {
    BareConcat(s.live, [ev]);
  }

  lemma BareOfferAll(streams: map<nat, Stream>, subs: set<nat>, ev: SessionEvent)
    ensures BareStreams(OfferAll(streams, subs, ev)) == OfferAll(BareStreams(streams), subs, BareEvent(ev))
  {
    var a, b := BareStreams(OfferAll(streams, subs, ev)), OfferAll(BareStreams(streams), subs, BareEvent(ev));
    assert a.Keys == streams.Keys == b.Keys;
    forall id | id in streams ensures a[id] == b[id] { BareOffer(streams[id], ev); }
  }

  lemma BareFanOut(h: Hub, ev: SessionEvent)
    ensures Bare(FanOut(h, ev)) == FanOut(Bare(h), BareEvent(ev))
  {
    BareOfferAll(h.streams, h.subs, ev);
    BareConcat(h.hist, [ev]);
    var a, b := StillRegistered(h.streams, h.subs, ev), StillRegistered(BareStreams(h.streams), h.subs, BareEvent(ev));
    forall id ensures id in a <==> id in b { BareOverflows(h.streams, id, ev); }
    assert a == b;
  }

  lemma BareOverflows(streams: map<nat, Stream>, id: nat, ev: SessionEvent)
    ensures Overflows(BareStreams(streams), id, BareEvent(ev)) <==> Overflows(streams, id, ev)
  {}

  lemma BareBucket(typ: EventType, b: PendingDelta)
    ensures BucketEvents(typ, b.(run := "")) == BareAll(BucketEvents(typ, b))
    ensures (set e | e in BucketEvents(typ, b.(run := ""))) == BareSet(set e | e in BucketEvents(typ, b))
  {
    var s := BucketEvents(typ, b);
    forall e | e in BareAll(s) ensures e in BareSet(set e | e in s) {
      var i :| 0 <= i < |s| && BareAll(s)[i] == e;
      assert s[i] in s;
    }
    forall e | e in BareSet(set e | e in s) ensures e in BareAll(s) {
      var x :| x in s && e == BareEvent(x);
      var i :| 0 <= i < |s| && s[i] == x;
      assert BareAll(s)[i] == e;
    }
  }

  lemma BareUnion(a: set<SessionEvent>, b: set<SessionEvent>)
    ensures BareSet(a + b) == BareSet(a) + BareSet(b)
  {}

  lemma BareWithout(buf: map<EventType, PendingDelta>, typ: EventType)
    ensures BareBuf(buf - {typ}) == BareBuf(buf) - {typ}
  {}

  lemma BareFlushType(h: Hub, typ: EventType, fails: set<EventType>)
    ensures Bare(FlushType(h, typ, fails)) == FlushType(Bare(h), typ, fails)
  {
    if typ in h.deltaBuf {
      if typ in fails { BareLoss(h, typ, fails); } else { BareBatch(h, typ, fails); }
    }
  }

  lemma BareLost(lost: set<SessionEvent>, typ: EventType, b: PendingDelta)
    ensures BareSet(lost + set e | e in BucketEvents(typ, b))
      == BareSet(lost) + set e | e in BucketEvents(typ, b.(run := ""))
  {
    BareBucket(typ, b);
    BareUnion(lost, set e | e in BucketEvents(typ, b));
  }

  lemma BareLoss(h: Hub, typ: EventType, fails: set<EventType>)
    requires typ in h.deltaBuf && typ in fails
    ensures Bare(FlushType(h, typ, fails)) == FlushType(Bare(h), typ, fails)
  {
    BareWithout(h.deltaBuf, typ);
    BareLost(h.lost, typ, h.deltaBuf[typ]);
    assert typ in Bare(h).deltaBuf && Bare(h).deltaBuf[typ] == h.deltaBuf[typ].(run := "");
  }

  lemma BareBatch(h: Hub, typ: EventType, fails: set<EventType>)
    requires typ in h.deltaBuf && typ !in fails
    ensures Bare(FlushType(h, typ, fails)) == FlushType(Bare(h), typ, fails)
  {
    var b := h.deltaBuf[typ];
    BareWithout(h.deltaBuf, typ);
    BareSnoc(h.log, EventRecord(b.run, typ, b.toSeq, b.fromSeq, Batch(b.parts)));
  }

  lemma {:induction false} BareFlushTypes(h: Hub, order: seq<EventType>, fails: set<EventType>)
    ensures Bare(FlushTypes(h, order, fails)) == FlushTypes(Bare(h), order, fails)
  {
    if order != [] {
      BareFlushTypes(h, order[..|order| - 1], fails);
      BareFlushType(FlushTypes(h, order[..|order| - 1], fails), order[|order| - 1], fails);
    }
  }

  lemma BareFlushAll(h: Hub, order: seq<EventType>, fails: set<EventType>)
    ensures Bare(FlushAll(h, order, fails)) == FlushAll(Bare(h), order, fails)
  {
    BareFlushTypes(h, order, fails);
  }

  lemma BarePut(h: Hub, ev: SessionEvent, size: nat)
    ensures Bare(PutDelta(h, ev, size)) == PutDelta(Bare(h), BareEvent(ev), size)
  {
    assert BareBuf(h.deltaBuf[ev.typ := Bucketed(h, ev, size)])
      == BareBuf(h.deltaBuf)[ev.typ := Bucketed(Bare(h), BareEvent(ev), size)];
  }

  lemma BareBuffer(h: Hub, ev: SessionEvent, size: nat, fails: set<EventType>)
    ensures Bare(BufferDelta(h, ev, size, fails)) == BufferDelta(Bare(h), BareEvent(ev), size, fails)
  {
    BarePut(h, ev, size);
    var h1 := PutDelta(h, ev, size);
    BareFlushType(h1, ev.typ, fails);
    EmptyBuf(FlushType(h1, ev.typ, fails).deltaBuf);
  }

  lemma EmptyBuf(buf: map<EventType, PendingDelta>)
    ensures BareBuf(buf) == map[] <==> buf == map[]
  {
    if buf != map[] {
      var t :| t in buf;
      assert t in BareBuf(buf);
    }
  }

  lemma BareBroadcast(h: Hub, ev: SessionEvent)
    ensures Bare(Broadcast(h, ev)) == Broadcast(Bare(h), BareEvent(ev))
  {
    BareFanOut(h.(nextSeq := h.nextSeq + 1, latest := ev.seqNo), ev);
  }

  lemma BarePublish(h: Hub, run: string, typ: EventType, payload: Payload, size: nat, fails: set<EventType>)
    ensures Bare(Publish(h, run, typ, payload, size, fails).0) == Publish(Bare(h), "", typ, payload, size, fails).0
  {
    var ev := SessionEvent(Resolve(h, run), h.nextSeq, typ, payload);
    BareBroadcast(h, ev);
    if h.closed {
    } else if IsKeyEvent(typ) {
      if h.journaled && typ !in fails { BareKey(h, ev); }
    } else {
      BareBuffer(Broadcast(h, ev), ev, size, fails);
    }
  }

  lemma BareKey(h: Hub, ev: SessionEvent)
    ensures var rec := EventRecord(ev.run, ev.typ, ev.seqNo, 0, ev.payload);
      Bare(Broadcast(h.(log := h.log + [rec]), ev))
        == Broadcast(Bare(h).(log := Bare(h).log + [BareRecord(rec)]), BareEvent(ev))
  {
    var rec := EventRecord(ev.run, ev.typ, ev.seqNo, 0, ev.payload);
    BareSnoc(h.log, rec);
    BareBroadcast(h.(log := h.log + [rec]), ev);
  }

  lemma BareRegister(h: Hub, cursor: nat, replay: seq<SessionEvent>)
    ensures Bare(Register(h, cursor, replay)) == Register(Bare(h), cursor, BareAll(replay))
  {
    var s := Stream(cursor, h.latest, replay, 0, [], false, None, 0, [], [], false, false);
    assert BareStreams(h.streams[h.nextSubId := s]) == BareStreams(h.streams)[h.nextSubId := BareStream(s)];
  }

  lemma BareSubscribe(h: Hub, cursor: nat, order: seq<EventType>, fails: set<EventType>, readOk: bool)
    ensures Bare(Subscribe(h, cursor, order, fails, readOk).0) == Subscribe(Bare(h), cursor, order, fails, readOk).0
    ensures Subscribe(h, cursor, order, fails, readOk).1 == Subscribe(Bare(h), cursor, order, fails, readOk).1
  {
    BareFlushAll(h, order, fails);
    var h1 := FlushAll(h, order, fails);
    BareRead(h1.log, cursor);
    BareDamaged(ReadEvents(h1.log, cursor));
    BareReplay(h1.log, cursor);
    BareRegister(h, cursor, []);
    BareRegister(h1, cursor, Replay(h1.log, cursor));
    BareRegister(h1.(integrity := Incomplete), cursor, Replay(h1.log, cursor));
  }

  lemma BareDisconnect(streams: map<nat, Stream>, subs: set<nat>)
    ensures BareStreams(DisconnectAll(streams, subs)) == DisconnectAll(BareStreams(streams), subs)
  {
    var a, b := BareStreams(DisconnectAll(streams, subs)), DisconnectAll(BareStreams(streams), subs);
    assert a.Keys == streams.Keys == b.Keys;
    forall id | id in streams ensures a[id] == b[id] {}
  }

  lemma BareClose(h: Hub, order: seq<EventType>, fails: set<EventType>)
    ensures Bare(Close(h, order, fails)) == Close(Bare(h), order, fails)
  {
    if !h.closed {
      BareFlushAll(h.(closed := true), order, fails);
      BareDisconnect(h.streams, h.subs);
    }
  }

  lemma BareSetStream(h: Hub, id: nat, s: Stream)
    ensures Bare(SetStream(h, id, s)) == SetStream(Bare(h), id, BareStream(s))
  {
    assert BareStreams(h.streams[id := s]) == BareStreams(h.streams)[id := BareStream(s)];
  }

  lemma BareSendReplay(s: Stream)
    requires s.sent < |s.replay|
    ensures BareStream(SendReplay(s)) == SendReplay(BareStream(s))
  {
    BareConcat(s.ch, [s.replay[s.sent]]);
  }

  lemma BareTakeLive(s: Stream)
    requires s.live != []
    ensures BareStream(TakeLive(s)) == TakeLive(BareStream(s))
  {
    assert BareAll(s.live[1..]) == BareAll(s.live)[1..];
  }

  lemma BareSendHeld(s: Stream)
    requires s.held.Some?
    ensures BareStream(SendHeld(s)) == SendHeld(BareStream(s))
  {
    BareConcat(s.ch, [s.held.value]);
  }

  function Consumed(s: Stream): Stream
    requires s.ch != []
  {
    s.(ch := s.ch[1..], received := s.received + [s.ch[0]])
  }

  lemma BareConsume(s: Stream)
    requires s.ch != []
    ensures BareStream(Consumed(s)) == Consumed(BareStream(s))
  {
    BareConcat(s.received, [s.ch[0]]);
    assert BareAll(s.ch[1..]) == BareAll(s.ch)[1..];
  }

  // ---------------------------------------------------------------- the simulation

  lemma BareEnabled(h: Hub, step: Step)
    ensures Enabled(Bare(h), BareStep(step)) <==> Enabled(h, step)
  {
    match step
    case PumpReplay(id) =>
    case PumpTake(id) =>
    case PumpSend(id) =>
    case PumpExit(id) => if id in h.streams { BareMayExit(h, id); }
    case Cancel(id) =>
    case Consume(id) =>
    case _ => BareWalks(h, step);
  }

  lemma BareMayExit(h: Hub, id: nat)
    requires id in h.streams
    ensures MayExit(Bare(h), BareStream(h.streams[id])) <==> MayExit(h, h.streams[id])
  {}

  lemma BareWalks(h: Hub, step: Step)
    requires step.DoPublish? || step.DoBeginRun? || step.DoEndRun? || step.DoTimer? || step.DoClose? || step.DoSubscribe?
    ensures Enabled(Bare(h), BareStep(step)) <==> Enabled(h, step)
  {
    assert Bare(h).deltaBuf.Keys == h.deltaBuf.Keys;
  }

  lemma BareApply(h: Hub, step: Step)
    requires Enabled(h, step)
    ensures Enabled(Bare(h), BareStep(step)) && Bare(Apply(h, step)) == Apply(Bare(h), BareStep(step))
  {
    BareEnabled(h, step);
    match step
    case DoPublish(run, typ, payload, size, fails) => BarePublish(h, run, typ, payload, size, fails);
    case DoBeginRun(_, order, fails) => BareFlushAll(h, order, fails);
    case DoEndRun(order, fails) => BareFlushAll(h, order, fails);
    case DoTimer(order, fails) => BareFlushAll(h, order, fails);
    case DoClose(order, fails) => BareClose(h, order, fails);
    case DoSubscribe(cursor, order, fails, readOk) => BareSubscribe(h, cursor, order, fails, readOk);
    case _ => BareStreamStep(h, step);
  }

  lemma BareStreamStep(h: Hub, step: Step)
    requires Enabled(h, step) && Enabled(Bare(h), BareStep(step))
    requires step.PumpReplay? || step.PumpTake? || step.PumpSend? || step.PumpExit? || step.Cancel? || step.Consume?
    ensures Bare(Apply(h, step)) == Apply(Bare(h), BareStep(step))
  {
    var s := h.streams[step.id];
    match step
    case PumpReplay(id) => BareSendReplay(s); BareSetStream(h, id, SendReplay(s));
    case PumpTake(id) => BareTakeLive(s); BareSetStream(h, id, TakeLive(s));
    case PumpSend(id) => BareSendHeld(s); BareSetStream(h, id, SendHeld(s));
    case PumpExit(id) => BareSetStream(h, id, s.(exited := true));
    case Cancel(id) => BareSetStream(h, id, s.(cancelled := true));
    case Consume(id) => BareConsume(s); BareSetStream(h, id, Consumed(s));
  }

  /** Without labels every bucket is the publisher's own. */
  lemma {:induction false} BareRun(h: Hub, steps: seq<Step>)
    ensures Bare(Run(h, steps)) == Run(Bare(h), BareSteps(steps))
    ensures OwnedRun(Bare(h), BareSteps(steps))
  {
    if steps != [] {
      var init, step := steps[..|steps| - 1], steps[|steps| - 1];
      BareRun(h, init);
      assert BareSteps(steps)[..|steps| - 1] == BareSteps(init);
      BareEnabled(Run(h, init), step);
      if Enabled(Run(h, init), step) { BareApply(Run(h, init), step); }
    }
  }

  function BareJournal(journal: Option<seq<EventRecord>>): Option<seq<EventRecord>> {
    match journal
    case None => None
    case Some(log) => Some(BareLog(log))
  }

  lemma {:induction false} BareBounds(log: seq<EventRecord>)
    requires log != []
    ensures MinSeq(BareLog(log)) == MinSeq(log) && MaxSeq(BareLog(log)) == MaxSeq(log)
  {
    if |log| > 1 {
      BareInit(log);
      BareBounds(log[..|log| - 1]);
    }
  }

  lemma BareReopened(log: seq<EventRecord>)
    requires log != []
    ensures Bare(NewHub(Some(log))) == NewHub(Some(BareLog(log)))
  {
    BareExpandAll(log);
    BareSort(ExpandAll(log));
    BareBounds(log);
  }

  lemma BareStart(journal: Option<seq<EventRecord>>)
    ensures Bare(NewHub(journal)) == NewHub(BareJournal(journal))
    ensures journal.Some? && ReadableHistory(journal.value) ==> ReadableHistory(BareLog(journal.value))
  {
    if journal.Some? {
      if journal.value != [] { BareReopened(journal.value); }
      if ReadableHistory(journal.value) { BareReadable(journal.value); }
    }
  }

  lemma BareReadable(log: seq<EventRecord>)
    requires ReadableHistory(log)
    ensures ReadableHistory(BareLog(log))
  {
    var s := ExpandAll(log);
    BareExpandAll(log);
    forall e | e in BareAll(s) ensures e.seqNo >= 1 {
      var i :| 0 <= i < |s| && BareAll(s)[i] == e;
      assert s[i] in s;
    }
  }

  // ---------------------------------------------------------------- what holds of any publishers

  /** Whoever publishes what under which run: the consumer has received, in strictly increasing order,
      a prefix of what it is entitled to, and while the hub does not report Incomplete that is a prefix
      of all events above its cursor, up to run labels. */
  lemma DeliveryOfContents(journal: Option<seq<EventRecord>>, steps: seq<Step>, id: nat)
    requires journal.Some? ==> ReadableHistory(journal.value)
    requires id in Run(NewHub(journal), steps).streams
    ensures var h := Run(NewHub(journal), steps); var s := h.streams[id];
      && Increasing(s.received)
      && BareAll(s.received) <= BareAll(Target(s, h.hist))
      && (h.journaled && h.integrity != Incomplete ==> BareAll(s.received) <= BareAll(After(h.hist, s.cursor)))
  {
    var h := Run(NewHub(journal), steps);
    var s := h.streams[id];
    BareStart(journal);
    BareRun(NewHub(journal), steps);
    Delivery(BareJournal(journal), BareSteps(steps), id);
    var b := Bare(h).streams[id];
    BareAfter(h.hist, s.watermark);
    BareAfter(h.hist, s.cursor);
    BareConcat(s.replay, After(h.hist, s.watermark));
    assert b == BareStream(s);
    forall i, j | 0 <= i < j < |s.received| ensures s.received[i].seqNo < s.received[j].seqNo {
      assert b.received[i].seqNo < b.received[j].seqNo;
    }
  }

  /** And a drained subscriber has received all of it. */
  lemma CaughtUpOnContents(journal: Option<seq<EventRecord>>, steps: seq<Step>, id: nat)
    requires journal.Some? ==> ReadableHistory(journal.value)
    requires var h := Run(NewHub(journal), steps);
      && id in h.subs && id in h.streams && h.streams[id].sent == |h.streams[id].replay|
      && h.streams[id].held.None? && h.streams[id].live == [] && h.streams[id].ch == []
    ensures var h := Run(NewHub(journal), steps);
      BareAll(h.streams[id].received) == BareAll(Target(h.streams[id], h.hist))
  {
    var h := Run(NewHub(journal), steps);
    var s := h.streams[id];
    BareStart(journal);
    BareRun(NewHub(journal), steps);
    CaughtUp(BareJournal(journal), BareSteps(steps), id);
    BareAfter(h.hist, s.watermark);
    BareConcat(s.replay, After(h.hist, s.watermark));
  }

  lemma BareMember(s: seq<SessionEvent>, e: SessionEvent)
    ensures e in s ==> BareEvent(e) in BareAll(s)
  {
    if e in s {
      var i :| 0 <= i < |s| && s[i] == e;
      assert BareAll(s)[i] == BareEvent(e);
    }
  }

  /** Every broadcast event, its run label aside, is in exactly one place. */
  lemma ContentsKept(log: seq<EventRecord>, steps: seq<Step>, e: SessionEvent)
    requires ReadableHistory(log) && e in Run(NewHub(Some(log)), steps).hist
    ensures var h := Run(NewHub(Some(log)), steps);
      var b, x := Bare(h), BareEvent(e);
      && (x in ExpandAll(b.log) || InBuf(b.deltaBuf, x) || x in b.lost)
      && !(x in ExpandAll(b.log) && InBuf(b.deltaBuf, x))
      && !(x in ExpandAll(b.log) && x in b.lost)
      && !(InBuf(b.deltaBuf, x) && x in b.lost)
      && (IsKeyEvent(e.typ) ==> x in ExpandAll(b.log))
      && (x in b.lost ==> h.integrity == Incomplete)
      && (InBuf(b.deltaBuf, x) ==> h.timerArmed)
  {
    BareStart(Some(log));
    BareRun(NewHub(Some(log)), steps);
    BareMember(Run(NewHub(Some(log)), steps).hist, e);
    EveryEventKept(BareLog(log), BareSteps(steps), BareEvent(e));
  }

  /** On a fresh hub integrity complete after Subscribe(0) means that the replay is the whole history. */
  lemma CompleteContents(steps: seq<Step>, order: seq<EventType>, fails: set<EventType>)
    requires var h := Run(NewHub(Some([])), steps);
      && Walks(h, order)
      && Subscribe(h, 0, order, fails, true).1.Subscribed?
      && Subscribe(h, 0, order, fails, true).0.integrity == Complete
    ensures var h := Run(NewHub(Some([])), steps);
      var h' := Subscribe(h, 0, order, fails, true).0;
      h.nextSubId in h'.streams && BareAll(h'.streams[h.nextSubId].replay) == BareAll(h.hist)
  {
    var h := Run(NewHub(Some([])), steps);
    BareStart(Some([]));
    assert BareLog([]) == [];
    BareRun(NewHub(Some([])), steps);
    BareSubscribe(h, 0, order, fails, true);
    assert BareBuf(h.deltaBuf).Keys == h.deltaBuf.Keys;
    CompleteReplay(BareSteps(steps), order, fails);
  }

  /** Integrity is given up only when an append failed, whoever publishes. */
  lemma CompleteUnlessFailed(steps: seq<Step>)
    requires forall i :: 0 <= i < |steps| ==> Fails(steps[i]) == {}
    ensures var h := Run(NewHub(Some([])), steps);
      h.integrity == Complete && h.lost == {} && !AnyDamaged(h.log)
  {
    var h := Run(NewHub(Some([])), steps);
    BareStart(Some([]));
    assert BareLog([]) == [];
    BareRun(NewHub(Some([])), steps);
    forall i | 0 <= i < |steps| ensures Fails(BareSteps(steps)[i]) == {} { assert Fails(steps[i]) == {}; }
    CompleteUnlessAppendFailed(BareSteps(steps));
    BareDamaged(h.log);
    NoneLost(h.lost);
  }

  lemma NoneLost(lost: set<SessionEvent>)
    ensures BareSet(lost) == {} <==> lost == {}
  {
    if lost != {} {
      var e :| e in lost;
      assert BareEvent(e) in BareSet(lost);
    }
  }

  lemma ReadableBare(log: seq<EventRecord>)
    requires ReadableHistory(BareLog(log))
    ensures ReadableHistory(log)
  {
    var s := ExpandAll(log);
    BareExpandAll(log);
    forall e | e in s ensures e.seqNo >= 1 {
      BareMember(s, e);
    }
    forall i, j | 0 <= i < j < |s| ensures s[i].seqNo != s[j].seqNo {
      assert BareAll(s)[i].seqNo != BareAll(s)[j].seqNo;
    }
  }

  /** Whoever published, what a crash leaves can be opened again, and the new hub knows, up to labels, the
      broadcast events that were neither pending nor lost. */
  lemma RestartContents(log: seq<EventRecord>, steps: seq<Step>)
    requires ReadableHistory(log)
    ensures var h := Run(NewHub(Some(log)), steps);
      && ReadableHistory(h.log)
      && forall x :: x in BareAll(NewHub(Some(h.log)).hist)
           <==> x in BareAll(h.hist) && !InBuf(BareBuf(h.deltaBuf), x) && x !in BareSet(h.lost)
  {
    var h := Run(NewHub(Some(log)), steps);
    BareStart(Some(log));
    BareRun(NewHub(Some(log)), steps);
    Restart(BareLog(log), BareSteps(steps));
    ReadableBare(h.log);
    BareStart(Some(h.log));
  }

  /** The invariant of the hub, labels aside, over every execution. */
  lemma BareInv(journal: Option<seq<EventRecord>>, steps: seq<Step>)
    requires journal.Some? ==> ReadableHistory(journal.value)
    ensures Inv(Bare(Run(NewHub(journal), steps)))
  {
    BareStart(journal);
    BareRun(NewHub(journal), steps);
    NewHubInv(BareJournal(journal));
    RunInv(NewHub(BareJournal(journal)), BareSteps(steps));
  }
}

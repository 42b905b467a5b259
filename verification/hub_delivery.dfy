/** What every interleaving of publishers, timer, subscriptions, pumps, disconnects and
    Close keeps, and what a subscriber therefore sees. */
module HubDelivery {
  import opened Events
  import opened HubModel

  // ---------------------------------------------------------------- invariants

  ghost predicate Numbered(h: Hub) {
    && Increasing(h.hist)
    && (forall i :: 0 <= i < |h.hist| ==> 1 <= h.hist[i].seqNo <= h.latest)
    && h.latest < h.nextSeq
  }

  ghost predicate BucketOk(b: PendingDelta) {
    b.fromSeq >= 1 && ValidDeltaBatch(b.parts, b.fromSeq, b.toSeq)
  }

  ghost predicate InBuf(buf: map<EventType, PendingDelta>, e: SessionEvent) {
    e.typ in buf && e in BucketEvents(e.typ, buf[e.typ])
  }

  /** Conservation: each broadcast event is in exactly one of the journal, the pending
      buffer and the batches whose append failed. */
  ghost predicate Conserved(hist: seq<SessionEvent>, written: seq<SessionEvent>, buf: map<EventType, PendingDelta>,
                            lost: set<SessionEvent>) {
    && (forall e :: e in hist <==> e in written || InBuf(buf, e) || e in lost)
    && (forall e :: e in lost ==> e !in written && !InBuf(buf, e))
    && (forall e :: InBuf(buf, e) ==> e !in written)
  }

  ghost predicate BucketsOk(buf: map<EventType, PendingDelta>) {
    forall t :: t in buf ==> !IsKeyEvent(t) && BucketOk(buf[t])
  }

  ghost predicate LossReported(lost: set<SessionEvent>, integrity: Integrity) {
    && (forall e :: e in lost ==> !IsKeyEvent(e.typ))
    && (lost != {} ==> integrity == Incomplete)
  }

  ghost predicate Stored(h: Hub) {
    if h.journaled then
      && Distinct(ExpandAll(h.log))
      && Conserved(h.hist, ExpandAll(h.log), h.deltaBuf, h.lost)
      && BucketsOk(h.deltaBuf)
      && LossReported(h.lost, h.integrity)
    else h.log == [] && h.deltaBuf == map[] && h.lost == {}
  }

  /** No delta is stranded: the window timer is armed exactly while something is buffered. */
  ghost predicate TimerOk(h: Hub) {
    h.timerArmed <==> h.deltaBuf != map[]
  }

  ghost function Delivered(s: Stream): seq<SessionEvent> {
    s.received + s.ch
  }

  ghost function Flow(s: Stream): seq<SessionEvent>
    requires s.sent <= |s.replay|
  {
    Delivered(s) + HeldSeq(s) + s.replay[s.sent..] + s.live
  }

  /** Everything this subscription is entitled to so far. */
  ghost function Target(s: Stream, hist: seq<SessionEvent>): seq<SessionEvent> {
    s.replay + After(hist, s.watermark)
  }

  ghost predicate PumpOk(s: Stream, registered: bool, hist: seq<SessionEvent>) {
    && s.sent <= |s.replay|
    && (s.held.Some? ==> s.sent == |s.replay|)
    && |s.live| <= SUBSCRIBER_BUFFER
    && |s.ch| <= SUBSCRIBER_BUFFER
    && s.lastSeq == (if Delivered(s) == [] then 0 else Delivered(s)[|Delivered(s)| - 1].seqNo)
    && Flow(s) <= Target(s, hist)
    && (registered ==> !s.disconnected && !s.exited && Flow(s) == Target(s, hist))
  }

  ghost predicate SnapshotOk(s: Stream, h: Hub) {
    && s.cursor <= s.watermark <= h.latest
    && s.replay == (if h.journaled then Select(h.hist, h.lost, s.cursor, s.watermark) else [])
    && (forall e :: InBuf(h.deltaBuf, e) ==> e.seqNo > s.watermark)
  }

  ghost predicate StreamsOk(h: Hub) {
    && h.subs <= h.streams.Keys
    && (forall id :: id in h.streams ==> id < h.nextSubId)
    && (forall id :: id in h.streams ==> SnapshotOk(h.streams[id], h))
    && (forall id :: id in h.streams ==> PumpOk(h.streams[id], id in h.subs, h.hist))
  }

  ghost predicate Core(h: Hub) {
    Numbered(h) && Stored(h) && StreamsOk(h)
  }

  ghost predicate Inv(h: Hub) {
    Core(h) && TimerOk(h) && (h.closed ==> h.subs == {})
  }

  // ---------------------------------------------------------------- start

  lemma {:induction false} MaxBounds(log: seq<EventRecord>)
    requires log != []
    ensures forall e :: e in ExpandAll(log) ==> e.seqNo <= MaxSeq(log)
  {
    var n := |log| - 1;
    ExpandBound(log[n]);
    assert ExpandAll(log) == ExpandAll(log[..n]) + Expand(log[n]);
    if n > 0 { MaxBounds(log[..n]); }
  }

  /** A retained history a hub may be opened on: no event number stands for two events. */
  ghost predicate ReadableHistory(log: seq<EventRecord>) {
    Distinct(ExpandAll(log)) && forall e :: e in ExpandAll(log) ==> e.seqNo >= 1
  }

  lemma OpenNumbered(log: seq<EventRecord>)
    requires log != [] && ReadableHistory(log)
    ensures Numbered(NewHub(Some(log)))
  {
    var hist := SortBySeq(ExpandAll(log));
    SortIncreasing(ExpandAll(log));
    MaxBounds(log);
    assert forall i :: 0 <= i < |hist| ==> hist[i] in hist;
  }

  lemma NothingPending(hist: seq<SessionEvent>, written: seq<SessionEvent>)
    requires forall e :: e in hist <==> e in written
    ensures Conserved(hist, written, map[], {})
  {}

  lemma NewHubInv(journal: Option<seq<EventRecord>>)
    requires journal.Some? ==> ReadableHistory(journal.value)
    ensures Inv(NewHub(journal))
  {
    if journal.Some? && journal.value != [] {
      OpenNumbered(journal.value);
      SortIncreasing(ExpandAll(journal.value));
      NothingPending(SortBySeq(ExpandAll(journal.value)), ExpandAll(journal.value));
    }
  }

  // ---------------------------------------------------------------- flushing

  lemma SameNumberSameEvent(h: Hub, a: SessionEvent, b: SessionEvent)
    requires Numbered(h) && a in h.hist && b in h.hist && a.seqNo == b.seqNo
    ensures a == b
  {}

  lemma DistinctConcat(h: Hub, a: seq<SessionEvent>, b: seq<SessionEvent>)
    requires Numbered(h) && Distinct(a) && Distinct(b)
    requires forall e :: e in a || e in b ==> e in h.hist
    requires forall e :: e in b ==> e !in a
    ensures Distinct(a + b)
  {
    var s := a + b;
    forall i, j | 0 <= i < j < |s| ensures s[i].seqNo != s[j].seqNo {
      if i < |a| <= j {
        assert s[i] in a && s[j] in b;
        if s[i].seqNo == s[j].seqNo { SameNumberSameEvent(h, s[i], s[j]); }
      }
    }
  }

  lemma BucketDistinct(typ: EventType, b: PendingDelta)
    requires BucketOk(b)
    ensures Distinct(BucketEvents(typ, b))
  {
    var s := BucketEvents(typ, b);
    forall i, j | 0 <= i < j < |s| ensures s[i].seqNo != s[j].seqNo {
      PartsIncreasing(b.parts, i, j);
    }
  }

  /** What one flush does to the rest of the hub. */
  ghost predicate Flushed(h: Hub, h': Hub) {
    && h' == h.(log := h'.log, deltaBuf := h'.deltaBuf, integrity := h'.integrity, lost := h'.lost)
    && h'.deltaBuf.Keys <= h.deltaBuf.Keys
    && (forall t :: t in h'.deltaBuf ==> h'.deltaBuf[t] == h.deltaBuf[t])
    && h.lost <= h'.lost
    && (forall e :: e in h'.lost ==> e in h.lost || InBuf(h.deltaBuf, e))
    && (h.integrity == Incomplete ==> h'.integrity == Incomplete)
  }

  lemma MoveConserved(hist: seq<SessionEvent>, written: seq<SessionEvent>, buf: map<EventType, PendingDelta>,
                      lost: set<SessionEvent>, typ: EventType)
    requires Conserved(hist, written, buf, lost) && typ in buf
    ensures var events := BucketEvents(typ, buf[typ]);
      && Conserved(hist, written + events, buf - {typ}, lost)
      && Conserved(hist, written, buf - {typ}, lost + set e | e in events)
  {
    var events := BucketEvents(typ, buf[typ]);
    forall e ensures InBuf(buf, e) <==> InBuf(buf - {typ}, e) || e in events {
      if e in events { assert e.typ == typ; }
    }
    forall e ensures !(InBuf(buf - {typ}, e) && e in events) {
      if e in events { assert e.typ == typ; }
    }
  }

  lemma FlushTypeFrame(h: Hub, typ: EventType, fails: set<EventType>)
    ensures var h' := FlushType(h, typ, fails); Flushed(h, h') && typ !in h'.deltaBuf
  {
    if typ in h.deltaBuf {
      var events := BucketEvents(typ, h.deltaBuf[typ]);
      assert forall e :: e in events ==> e.typ == typ && InBuf(h.deltaBuf, e);
    }
  }

  lemma BatchRecordExpands(typ: EventType, b: PendingDelta)
    requires BucketOk(b)
    ensures Expand(EventRecord(b.run, typ, b.toSeq, b.fromSeq, Batch(b.parts))) == BucketEvents(typ, b)
  {}

  lemma FlushTypeStored(h: Hub, typ: EventType, fails: set<EventType>)
    requires Numbered(h) && Stored(h)
    ensures Stored(FlushType(h, typ, fails))
  {
    if typ in h.deltaBuf {
      var b := h.deltaBuf[typ];
      var events := BucketEvents(typ, b);
      MoveConserved(h.hist, ExpandAll(h.log), h.deltaBuf, h.lost, typ);
      assert forall e :: e in events ==> e.typ == typ && InBuf(h.deltaBuf, e);
      if typ !in fails {
        BatchRecordExpands(typ, b);
        Snoc(h.log, EventRecord(b.run, typ, b.toSeq, b.fromSeq, Batch(b.parts)));
        BucketDistinct(typ, b);
        DistinctConcat(h, ExpandAll(h.log), events);
      }
    }
  }

  lemma {:induction false} FlushTypesStored(h: Hub, order: seq<EventType>, fails: set<EventType>)
    requires Numbered(h) && Stored(h)
    ensures var h' := FlushTypes(h, order, fails);
      Stored(h') && Flushed(h, h') && forall t :: t in order ==> t !in h'.deltaBuf
  {
    if order != [] {
      var n := |order| - 1;
      FlushTypesStored(h, order[..n], fails);
      var h1 := FlushTypes(h, order[..n], fails);
      FlushTypeStored(h1, order[n], fails);
      FlushTypeFrame(h1, order[n], fails);
      var h2 := FlushType(h1, order[n], fails);
      assert forall e :: InBuf(h1.deltaBuf, e) ==> InBuf(h.deltaBuf, e);
      assert order == order[..n] + [order[n]];
    }
  }

  lemma {:induction false} SelectFrame(s: seq<SessionEvent>, lost: set<SessionEvent>, more: set<SessionEvent>, lo: nat, hi: nat)
    requires lost <= more && forall e :: e in more && e !in lost ==> e.seqNo > hi
    ensures Select(s, lost, lo, hi) == Select(s, more, lo, hi)
  {
    if s != [] { SelectFrame(s[..|s| - 1], lost, more, lo, hi); }
  }

  lemma FlushedStreams(h: Hub, h': Hub)
    requires StreamsOk(h) && Flushed(h, h')
    ensures StreamsOk(h')
  {
    assert forall e :: InBuf(h'.deltaBuf, e) ==> InBuf(h.deltaBuf, e);
    forall id | id in h.streams ensures SnapshotOk(h'.streams[id], h') {
      var s := h.streams[id];
      assert SnapshotOk(s, h);
      SelectFrame(h.hist, h.lost, h'.lost, s.cursor, s.watermark);
    }
    assert forall id :: id in h.streams ==> PumpOk(h.streams[id], id in h.subs, h.hist);
  }

  lemma FlushAllInv(h: Hub, order: seq<EventType>, fails: set<EventType>)
    requires Core(h) && Walks(h, order)
    ensures var h' := FlushAll(h, order, fails);
      Core(h') && TimerOk(h') && h'.deltaBuf == map[] && Flushed(h.(timerArmed := false), h')
  {
    FlushTypesStored(h, order, fails);
    var h1 := FlushTypes(h, order, fails);
    FlushedStreams(h, h1);
    assert forall t :: t !in h1.deltaBuf;
    StreamsFrame(h1, h1.(timerArmed := false));
  }

  // ---------------------------------------------------------------- publishing

  lemma Assoc<T>(a: seq<T>, b: seq<T>, c: seq<T>)
    ensures a + (b + c) == a + b + c
  {}

  lemma OfferOk(s: Stream, hist: seq<SessionEvent>, ev: SessionEvent)
    requires PumpOk(s, true, hist) && ev.seqNo > s.watermark
    ensures PumpOk(Offer(s, ev), |s.live| < SUBSCRIBER_BUFFER, hist + [ev])
  {
    AfterSnoc(hist, ev, s.watermark);
    Assoc(s.replay, After(hist, s.watermark), [ev]);
    if |s.live| < SUBSCRIBER_BUFFER {
      Assoc(Delivered(s) + HeldSeq(s) + s.replay[s.sent..], s.live, [ev]);
      assert Flow(Offer(s, ev)) == Flow(s) + [ev];
    } else {
      assert Flow(Offer(s, ev)) == Flow(s);
    }
  }

  lemma UnregisteredOk(s: Stream, hist: seq<SessionEvent>, ev: SessionEvent)
    requires PumpOk(s, false, hist)
    ensures PumpOk(s, false, hist + [ev])
  {
    AfterSnoc(hist, ev, s.watermark);
    assert Target(s, hist) <= Target(s, hist + [ev]);
  }

  lemma {:induction false} SelectSnoc(s: seq<SessionEvent>, e: SessionEvent, lost: set<SessionEvent>, lo: nat, hi: nat)
    requires e.seqNo > hi
    ensures Select(s + [e], lost, lo, hi) == Select(s, lost, lo, hi)
  {
    Snoc(s, e);
  }

  lemma BroadcastStreams(h: Hub, ev: SessionEvent)
    requires Numbered(h) && StreamsOk(h) && ev.seqNo == h.nextSeq
    ensures StreamsOk(Broadcast(h, ev))
  {
    var h' := Broadcast(h, ev);
    forall id | id in h'.streams ensures SnapshotOk(h'.streams[id], h') && PumpOk(h'.streams[id], id in h'.subs, h'.hist) {
      var s := h.streams[id];
      assert SnapshotOk(s, h) && PumpOk(s, id in h.subs, h.hist);
      SelectSnoc(h.hist, ev, h.lost, s.cursor, s.watermark);
      if id in h.subs { OfferOk(s, h.hist, ev); } else { UnregisteredOk(s, h.hist, ev); }
    }
  }

  lemma HistSnoc(h: Hub, ev: SessionEvent)
    requires Numbered(h) && ev.seqNo == h.nextSeq
    ensures Increasing(h.hist + [ev])
    ensures forall e :: e in h.hist + [ev] <==> e in h.hist || e == ev
    ensures ev !in h.hist
  {}

  /** Appending the next event to its bucket keeps the bucket a valid batch and adds
      exactly that event to the buffer. */
  lemma BucketedOk(h: Hub, ev: SessionEvent, size: nat)
    requires Stored(h) && h.journaled && ev.seqNo >= 1
    requires forall e :: InBuf(h.deltaBuf, e) ==> e.seqNo < ev.seqNo
    requires ev.typ !in h.deltaBuf || h.deltaBuf[ev.typ].run == ev.run
    ensures var b := Bucketed(h, ev, size);
      && BucketOk(b)
      && forall e :: e in BucketEvents(ev.typ, b) <==> (e.typ == ev.typ && InBuf(h.deltaBuf, e)) || e == ev
  {
    var b := Bucketed(h, ev, size);
    if ev.typ in h.deltaBuf {
      var b0 := h.deltaBuf[ev.typ];
      assert BucketOk(b0);
      var earlier := BucketEvents(ev.typ, b0);
      assert BucketEvents(ev.typ, b) == earlier + [ev];
      assert earlier[|earlier| - 1] in earlier;
      assert InBuf(h.deltaBuf, earlier[|earlier| - 1]);
      assert forall e :: e in earlier ==> e.typ == ev.typ;
    } else {
      assert BucketEvents(ev.typ, b) == [ev];
    }
  }

  lemma PublishDeltaConserved(hist: seq<SessionEvent>, written: seq<SessionEvent>, buf: map<EventType, PendingDelta>,
                              lost: set<SessionEvent>, ev: SessionEvent, b: PendingDelta)
    requires Conserved(hist, written, buf, lost) && ev !in hist
    requires forall e :: e in BucketEvents(ev.typ, b) <==> (e.typ == ev.typ && InBuf(buf, e)) || e == ev
    ensures Conserved(hist + [ev], written, buf[ev.typ := b], lost)
    ensures forall e :: InBuf(buf[ev.typ := b], e) <==> InBuf(buf, e) || e == ev
  {
    forall e ensures InBuf(buf[ev.typ := b], e) <==> InBuf(buf, e) || e == ev {}
  }

  /** The hub after a delta was broadcast and put into its bucket, before the size check. */
  ghost function Buffered(h: Hub, ev: SessionEvent, size: nat): Hub {
    PutDelta(Broadcast(h, ev), ev, size)
  }

  lemma BufferedNumbered(h: Hub, ev: SessionEvent, size: nat)
    requires Numbered(h) && ev.seqNo == h.nextSeq
    ensures Numbered(Buffered(h, ev, size))
  {}

  lemma BufferedStored(h: Hub, ev: SessionEvent, size: nat)
    requires Stored(h) && h.journaled && !IsKeyEvent(ev.typ) && ev !in h.hist && ev.seqNo >= 1
    requires forall e :: InBuf(h.deltaBuf, e) ==> e.seqNo < ev.seqNo
    requires ev.typ !in h.deltaBuf || h.deltaBuf[ev.typ].run == ev.run
    ensures Stored(Buffered(h, ev, size))
    ensures forall e :: InBuf(Buffered(h, ev, size).deltaBuf, e) ==> InBuf(h.deltaBuf, e) || e == ev
  {
    hide ExpandAll, BucketEvents, Distinct, Conserved, OfferAll, StillRegistered;
    BucketedOk(h, ev, size);
    PublishDeltaConserved(h.hist, ExpandAll(h.log), h.deltaBuf, h.lost, ev, Bucketed(h, ev, size));
  }

  lemma PendingBelow(h: Hub, ev: SessionEvent)
    requires Numbered(h) && Stored(h) && h.journaled && ev.seqNo == h.nextSeq
    ensures ev !in h.hist && forall e :: InBuf(h.deltaBuf, e) ==> e.seqNo < ev.seqNo
  {
    assert forall e :: InBuf(h.deltaBuf, e) ==> e in h.hist;
  }

  lemma BufferedStreams(h: Hub, ev: SessionEvent, size: nat)
    requires Numbered(h) && StreamsOk(h) && ev.seqNo == h.nextSeq
    requires forall e :: InBuf(Buffered(h, ev, size).deltaBuf, e) ==> InBuf(h.deltaBuf, e) || e == ev
    ensures StreamsOk(Buffered(h, ev, size))
  {
    BroadcastStreams(h, ev);
    var h1, h2 := Broadcast(h, ev), Buffered(h, ev, size);
    forall id | id in h2.streams ensures SnapshotOk(h2.streams[id], h2) {
      assert SnapshotOk(h.streams[id], h) && SnapshotOk(h1.streams[id], h1);
    }
    forall id | id in h2.streams ensures PumpOk(h2.streams[id], id in h2.subs, h2.hist) {
      assert PumpOk(h1.streams[id], id in h1.subs, h1.hist);
    }
  }

  lemma BufferedCore(h: Hub, ev: SessionEvent, size: nat)
    requires Core(h) && h.journaled && !IsKeyEvent(ev.typ) && ev.seqNo == h.nextSeq
    requires ev.typ !in h.deltaBuf || h.deltaBuf[ev.typ].run == ev.run
    ensures Core(Buffered(h, ev, size))
  {
    PendingBelow(h, ev);
    BufferedNumbered(h, ev, size);
    BufferedStored(h, ev, size);
    BufferedStreams(h, ev, size);
  }

  lemma FlushTypeCore(h: Hub, typ: EventType, fails: set<EventType>)
    requires Core(h)
    ensures Core(FlushType(h, typ, fails)) && Core(FlushType(h, typ, fails).(timerArmed := false))
  {
    FlushTypeStored(h, typ, fails);
    FlushTypeFrame(h, typ, fails);
    var h' := FlushType(h, typ, fails);
    FlushedStreams(h, h');
    StreamsFrame(h', h'.(timerArmed := false));
  }

  lemma BufferDeltaInv(h: Hub, ev: SessionEvent, size: nat, fails: set<EventType>, h': Hub)
    requires Inv(h) && h.journaled && !h.closed && !IsKeyEvent(ev.typ) && ev.seqNo == h.nextSeq
    requires ev.typ !in h.deltaBuf || h.deltaBuf[ev.typ].run == ev.run
    requires h' == BufferDelta(Broadcast(h, ev), ev, size, fails)
    ensures Inv(h')
  {
    BufferedCore(h, ev, size);
    var h2 := Buffered(h, ev, size);
    var h3 := FlushType(h2, ev.typ, fails);
    FlushTypeCore(h2, ev.typ, fails);
    assert ev.typ in h2.deltaBuf;
  }

  /** Changes outside the fields a subscription depends on. */
  lemma StreamsFrame(h: Hub, h': Hub)
    requires StreamsOk(h)
    requires h' == h.(nextSeq := h'.nextSeq, earliest := h'.earliest, integrity := h'.integrity, log := h'.log,
                      curRun := h'.curRun, timerArmed := h'.timerArmed, closed := h'.closed)
    ensures StreamsOk(h')
  {
    forall id | id in h.streams ensures SnapshotOk(h'.streams[id], h') && PumpOk(h'.streams[id], id in h'.subs, h'.hist) {
      assert SnapshotOk(h.streams[id], h) && PumpOk(h.streams[id], id in h.subs, h.hist);
    }
  }

  lemma KeyStored(h: Hub, ev: SessionEvent, h': Hub)
    requires Numbered(h) && Stored(h) && ev.seqNo == h.nextSeq
    requires h'.hist == h.hist + [ev] && h'.latest == ev.seqNo && h'.nextSeq == h.nextSeq + 1
    requires h'.journaled == h.journaled && h'.deltaBuf == h.deltaBuf && h'.lost == h.lost && h'.integrity == h.integrity
    requires h'.log == if h.journaled then h.log + [EventRecord(ev.run, ev.typ, ev.seqNo, 0, ev.payload)] else h.log
    ensures Numbered(h') && Stored(h')
  {
    HistSnoc(h, ev);
    assert Numbered(h');
    if h.journaled {
      Snoc(h.log, EventRecord(ev.run, ev.typ, ev.seqNo, 0, ev.payload));
      assert ExpandAll(h'.log) == ExpandAll(h.log) + [ev];
      DistinctConcat(h', ExpandAll(h.log), [ev]);
    }
  }

  lemma PublishKeyInv(h: Hub, ev: SessionEvent, h2: Hub, h': Hub)
    requires Inv(h) && IsKeyEvent(ev.typ) && ev.seqNo == h.nextSeq
    requires h2 == h.(log := h2.log)
    requires h2.log == if h.journaled then h.log + [EventRecord(ev.run, ev.typ, ev.seqNo, 0, ev.payload)] else h.log
    requires h' == Broadcast(h2, ev)
    ensures Inv(h')
  {
    StreamsFrame(h, h2);
    BroadcastStreams(h2, ev);
    KeyStored(h, ev, h');
  }

  lemma PublishVolatileInv(h: Hub, ev: SessionEvent, h': Hub)
    requires Inv(h) && !h.journaled && ev.seqNo == h.nextSeq
    requires h' == Broadcast(h, ev)
    ensures Inv(h')
  {
    BroadcastStreams(h, ev);
    HistSnoc(h, ev);
  }

  lemma BurnedInv(h: Hub, h': Hub)
    requires Inv(h) && h' == h.(nextSeq := h.nextSeq + 1, integrity := Incomplete)
    ensures Inv(h')
  {
    StreamsFrame(h, h');
  }

  lemma PublishesKeyInv(h: Hub, run: string, typ: EventType, payload: Payload, size: nat, fails: set<EventType>)
    requires Inv(h) && !h.closed && IsKeyEvent(typ)
    ensures Inv(Publish(h, run, typ, payload, size, fails).0)
  {
    var ev := SessionEvent(Resolve(h, run), h.nextSeq, typ, payload);
    var h' := Publish(h, run, typ, payload, size, fails).0;
    if h.journaled && typ in fails {
      BurnedInv(h, h');
    } else {
      var rec := EventRecord(ev.run, ev.typ, ev.seqNo, 0, ev.payload);
      PublishKeyInv(h, ev, if h.journaled then h.(log := h.log + [rec]) else h, h');
    }
  }

  lemma PublishesDeltaInv(h: Hub, run: string, typ: EventType, payload: Payload, size: nat, fails: set<EventType>)
    requires Inv(h) && !h.closed && !IsKeyEvent(typ) && SameRun(h, run, typ)
    ensures Inv(Publish(h, run, typ, payload, size, fails).0)
  {
    var ev := SessionEvent(Resolve(h, run), h.nextSeq, typ, payload);
    var h' := Publish(h, run, typ, payload, size, fails).0;
    if h.journaled { BufferDeltaInv(h, ev, size, fails, h'); } else { PublishVolatileInv(h, ev, h'); }
  }

  lemma PublishInv(h: Hub, run: string, typ: EventType, payload: Payload, size: nat, fails: set<EventType>)
    requires Inv(h) && SameRun(h, run, typ)
    ensures Inv(Publish(h, run, typ, payload, size, fails).0)
  {
    if h.closed {
    } else if IsKeyEvent(typ) {
      PublishesKeyInv(h, run, typ, payload, size, fails);
    } else {
      PublishesDeltaInv(h, run, typ, payload, size, fails);
    }
  }

  // ---------------------------------------------------------------- subscribing

  /** With nothing pending, the sorted replay is exactly the broadcast history above the
      cursor minus the lost batches. */
  lemma {:induction false} ReplayIsSelection(h: Hub, cursor: nat)
    requires Numbered(h) && Stored(h) && h.journaled && h.deltaBuf == map[]
    ensures Replay(h.log, cursor) == Select(h.hist, h.lost, cursor, h.latest)
  {
    var above := After(ExpandAll(h.log), cursor);
    ReadExpandsExactly(h.log, cursor);
    AfterMembers(ExpandAll(h.log), cursor);
    AfterDistinct(ExpandAll(h.log), cursor);
    SortIncreasing(above);
    SelectMembers(h.hist, h.lost, cursor, h.latest);
    SelectIncreasing(h.hist, h.lost, cursor, h.latest);
    forall e ensures e in SortBySeq(above) <==> e in Select(h.hist, h.lost, cursor, h.latest) {
      assert e in h.hist <==> e in ExpandAll(h.log) || InBuf(h.deltaBuf, e) || e in h.lost;
      assert !InBuf(h.deltaBuf, e);
    }
    IncreasingUnique(SortBySeq(above), Select(h.hist, h.lost, cursor, h.latest));
  }

  lemma {:induction false} NothingAbove(s: seq<SessionEvent>, c: nat)
    requires forall i :: 0 <= i < |s| ==> s[i].seqNo <= c
    ensures After(s, c) == []
  {
    if s != [] { NothingAbove(s[..|s| - 1], c); }
  }

  lemma {:induction false} FreshStreamOk(s: Stream, hist: seq<SessionEvent>)
    requires After(hist, s.watermark) == []
    requires s == Stream(s.cursor, s.watermark, s.replay, 0, [], false, None, 0, [], [], false, false)
    ensures PumpOk(s, true, hist)
  {
    assert Flow(s) == s.replay && Target(s, hist) == s.replay;
  }

  lemma {:induction false} RegisterInv(h: Hub, cursor: nat, replay: seq<SessionEvent>)
    requires Inv(h) && !h.closed && cursor <= h.latest && h.deltaBuf == map[]
    requires replay == if h.journaled then Select(h.hist, h.lost, cursor, h.latest) else []
    ensures Inv(Register(h, cursor, replay))
  {
    var h' := Register(h, cursor, replay);
    NothingAbove(h.hist, h.latest);
    FreshStreamOk(h'.streams[h.nextSubId], h.hist);
    forall id | id in h'.streams ensures SnapshotOk(h'.streams[id], h') && PumpOk(h'.streams[id], id in h'.subs, h'.hist) {
      if id != h.nextSubId {
        assert SnapshotOk(h.streams[id], h) && PumpOk(h.streams[id], id in h.subs, h.hist);
      }
    }
  }

  lemma SubscribeJournaledInv(h: Hub, cursor: nat, replay: seq<SessionEvent>)
    requires Inv(h) && h.journaled && !h.closed && cursor <= h.latest && h.deltaBuf == map[]
    requires replay == Replay(h.log, cursor)
    ensures Inv(Register(h, cursor, replay)) && Inv(Register(h.(integrity := Incomplete), cursor, replay))
  {
    ReplayIsSelection(h, cursor);
    RegisterInv(h, cursor, replay);
    StreamsFrame(h, h.(integrity := Incomplete));
    RegisterInv(h.(integrity := Incomplete), cursor, replay);
  }

  lemma SubscribeInv(h: Hub, cursor: nat, order: seq<EventType>, fails: set<EventType>, readOk: bool)
    requires Inv(h) && Walks(h, order)
    ensures Inv(Subscribe(h, cursor, order, fails, readOk).0)
  {
    if h.closed || Rejects(h, cursor) {
    } else if !h.journaled {
      RegisterInv(h, cursor, []);
    } else {
      FlushAllInv(h, order, fails);
      var h1 := FlushAll(h, order, fails);
      SubscribeJournaledInv(h1, cursor, Replay(h1.log, cursor));
    }
  }

  lemma DisconnectOk(s: Stream, registered: bool, hist: seq<SessionEvent>)
    requires PumpOk(s, registered, hist)
    ensures PumpOk(s.(disconnected := true), false, hist) && PumpOk(s, false, hist)
  {
    assert Flow(s.(disconnected := true)) == Flow(s);
  }

  lemma CloseInv(h: Hub, order: seq<EventType>, fails: set<EventType>)
    requires Inv(h) && Walks(h, order)
    ensures Inv(Close(h, order, fails))
  {
    if !h.closed {
      StreamsFrame(h, h.(closed := true));
      FlushAllInv(h.(closed := true), order, fails);
      var h1 := FlushAll(h.(closed := true), order, fails);
      var h' := Close(h, order, fails);
      forall id | id in h'.streams ensures SnapshotOk(h'.streams[id], h') && PumpOk(h'.streams[id], false, h'.hist) {
        assert SnapshotOk(h1.streams[id], h1) && PumpOk(h1.streams[id], id in h1.subs, h1.hist);
        DisconnectOk(h1.streams[id], id in h1.subs, h1.hist);
      }
    }
  }

  // ---------------------------------------------------------------- pump steps

  lemma TargetIncreasing(h: Hub, id: nat)
    requires Inv(h) && id in h.streams
    ensures Increasing(Target(h.streams[id], h.hist))
    ensures forall e :: e in Target(h.streams[id], h.hist) ==> e.seqNo >= 1
  {
    var s := h.streams[id];
    assert SnapshotOk(s, h);
    AfterIncreasing(h.hist, s.watermark);
    AfterMembers(h.hist, s.watermark);
    SelectIncreasing(h.hist, h.lost, s.cursor, s.watermark);
    SelectMembers(h.hist, h.lost, s.cursor, s.watermark);
    IncreasingConcat(s.replay, After(h.hist, s.watermark), s.watermark);
  }

  lemma SetStreamOk(h: Hub, id: nat, s: Stream)
    requires StreamsOk(h) && id in h.streams
    requires s.cursor == h.streams[id].cursor && s.watermark == h.streams[id].watermark && s.replay == h.streams[id].replay
    requires PumpOk(s, id in h.subs, h.hist)
    ensures StreamsOk(SetStream(h, id, s))
  {
    var h' := SetStream(h, id, s);
    forall k | k in h'.streams ensures SnapshotOk(h'.streams[k], h') {
      assert SnapshotOk(h.streams[k], h);
    }
    forall k | k in h'.streams ensures PumpOk(h'.streams[k], k in h'.subs, h'.hist) {
      assert PumpOk(h.streams[k], k in h.subs, h.hist);
    }
  }

  lemma SetStreamInv(h: Hub, id: nat, s: Stream)
    requires Inv(h) && id in h.streams
    requires s.cursor == h.streams[id].cursor && s.watermark == h.streams[id].watermark && s.replay == h.streams[id].replay
    requires PumpOk(s, id in h.subs, h.hist)
    ensures Inv(SetStream(h, id, s))
  {
    SetStreamOk(h, id, s);
  }

  lemma SendReplayOk(s: Stream, registered: bool, hist: seq<SessionEvent>)
    requires PumpOk(s, registered, hist) && s.sent < |s.replay| && |s.ch| < SUBSCRIBER_BUFFER
    ensures PumpOk(SendReplay(s), registered, hist)
  {
    var s' := SendReplay(s);
    var e := [s.replay[s.sent]];
    assert s.replay[s.sent..] == e + s.replay[s'.sent..];
    Assoc(s.received, s.ch, e);
    Assoc(Delivered(s), e, s.replay[s'.sent..]);
    assert HeldSeq(s) == [];
    assert Flow(s') == Flow(s);
  }

  lemma TakeLiveOk(s: Stream, registered: bool, hist: seq<SessionEvent>)
    requires PumpOk(s, registered, hist) && s.sent == |s.replay| && s.held.None? && s.live != []
    requires s.live[0].seqNo > s.lastSeq
    ensures PumpOk(TakeLive(s), registered, hist)
  {
    var s' := TakeLive(s);
    assert s.live == [s.live[0]] + s'.live;
    assert s.replay[s.sent..] == [];
    Assoc(Delivered(s), [s.live[0]], s'.live);
    assert Flow(s') == Flow(s);
  }

  lemma SendHeldOk(s: Stream, registered: bool, hist: seq<SessionEvent>)
    requires PumpOk(s, registered, hist) && s.held.Some? && |s.ch| < SUBSCRIBER_BUFFER
    ensures PumpOk(SendHeld(s), registered, hist)
  {
    Assoc(s.received, s.ch, [s.held.value]);
    assert Flow(SendHeld(s)) == Flow(s);
  }

  lemma ConsumeOk(s: Stream, registered: bool, hist: seq<SessionEvent>)
    requires PumpOk(s, registered, hist) && s.ch != []
    ensures PumpOk(s.(ch := s.ch[1..], received := s.received + [s.ch[0]]), registered, hist)
  {
    var s' := s.(ch := s.ch[1..], received := s.received + [s.ch[0]]);
    assert s.ch == [s.ch[0]] + s'.ch;
    Assoc(s.received, [s.ch[0]], s'.ch);
    assert Flow(s') == Flow(s);
  }

  lemma PumpReplayInv(h: Hub, id: nat)
    requires Inv(h) && Enabled(h, PumpReplay(id))
    ensures Inv(Apply(h, PumpReplay(id)))
  {
    SendReplayOk(h.streams[id], id in h.subs, h.hist);
    SetStreamInv(h, id, SendReplay(h.streams[id]));
  }

  lemma PumpTakeInv(h: Hub, id: nat)
    requires Inv(h) && Enabled(h, PumpTake(id))
    ensures Inv(Apply(h, PumpTake(id)))
  {
    TakeNeverDrops(h, id);
    TakeLiveOk(h.streams[id], id in h.subs, h.hist);
    SetStreamInv(h, id, TakeLive(h.streams[id]));
  }

  lemma PumpSendInv(h: Hub, id: nat)
    requires Inv(h) && Enabled(h, PumpSend(id))
    ensures Inv(Apply(h, PumpSend(id)))
  {
    SendHeldOk(h.streams[id], id in h.subs, h.hist);
    SetStreamInv(h, id, SendHeld(h.streams[id]));
  }

  lemma CancelOk(s: Stream, registered: bool, hist: seq<SessionEvent>)
    requires PumpOk(s, registered, hist)
    ensures PumpOk(s.(cancelled := true), registered, hist)
  {
    assert Flow(s.(cancelled := true)) == Flow(s);
  }

  lemma CancelInv(h: Hub, id: nat)
    requires Inv(h) && Enabled(h, Cancel(id))
    ensures Inv(Apply(h, Cancel(id)))
  {
    CancelOk(h.streams[id], id in h.subs, h.hist);
    SetStreamInv(h, id, h.streams[id].(cancelled := true));
  }

  lemma ConsumeInv(h: Hub, id: nat)
    requires Inv(h) && Enabled(h, Consume(id))
    ensures Inv(Apply(h, Consume(id)))
  {
    var s := h.streams[id];
    ConsumeOk(s, id in h.subs, h.hist);
    SetStreamInv(h, id, s.(ch := s.ch[1..], received := s.received + [s.ch[0]]));
  }

  /** The duplicate guard of the live phase never fires: what comes out of the live channel
      is always above what was delivered, so dropping can not hide an event. */
  lemma TakeNeverDrops(h: Hub, id: nat)
    requires Inv(h) && Enabled(h, PumpTake(id))
    ensures h.streams[id].live[0].seqNo > h.streams[id].lastSeq
  {
    TargetIncreasing(h, id);
    LiveIsNew(h.streams[id], id in h.subs, h.hist);
  }

  lemma LiveIsNew(s: Stream, registered: bool, hist: seq<SessionEvent>)
    requires PumpOk(s, registered, hist) && s.sent == |s.replay| && s.held.None? && s.live != []
    requires Increasing(Target(s, hist)) && forall e :: e in Target(s, hist) ==> e.seqNo >= 1
    ensures s.live[0].seqNo > s.lastSeq
  {
    var t := Target(s, hist);
    var n := |Delivered(s)|;
    assert Flow(s) == Delivered(s) + s.live;
    assert t[n] == Flow(s)[n] == s.live[0];
    assert t[n] in t;
    if n > 0 { assert t[n - 1] == Flow(s)[n - 1] == Delivered(s)[n - 1]; }
  }

  lemma PumpExitInv(h: Hub, id: nat)
    requires Inv(h) && Enabled(h, PumpExit(id))
    ensures Inv(Apply(h, PumpExit(id)))
  {
    var h0 := h.(subs := h.subs - {id});
    forall k | k in h0.streams ensures SnapshotOk(h0.streams[k], h0) && PumpOk(h0.streams[k], k in h0.subs, h0.hist) {
      assert SnapshotOk(h.streams[k], h) && PumpOk(h.streams[k], k in h.subs, h.hist);
    }
    var s' := h.streams[id].(exited := true);
    assert Flow(s') == Flow(h.streams[id]);
    SetStreamInv(h0, id, s');
    assert Apply(h, PumpExit(id)) == SetStream(h0, id, s');
  }

  lemma StepInv(h: Hub, step: Step)
    requires Inv(h) && Enabled(h, step) && Owned(h, step)
    ensures Inv(Apply(h, step))
  {
    match step
    case DoPublish(run, typ, payload, size, fails) => PublishInv(h, run, typ, payload, size, fails);
    case DoBeginRun(run, order, fails) => if !h.closed { FlushAllInv(h, order, fails); CurRunInv(FlushAll(h, order, fails), run); }
    case DoEndRun(order, fails) => if !h.closed { FlushAllInv(h, order, fails); CurRunInv(FlushAll(h, order, fails), ""); }
    case DoTimer(order, fails) => if !h.closed { FlushAllInv(h, order, fails); }
    case DoClose(order, fails) => CloseInv(h, order, fails);
    case DoSubscribe(cursor, order, fails, readOk) => SubscribeInv(h, cursor, order, fails, readOk);
    case PumpExit(id) => PumpExitInv(h, id);
    case PumpReplay(id) => PumpReplayInv(h, id);
    case PumpTake(id) => PumpTakeInv(h, id);
    case PumpSend(id) => PumpSendInv(h, id);
    case Cancel(id) => CancelInv(h, id);
    case Consume(id) => ConsumeInv(h, id);
  }

  lemma CurRunInv(h: Hub, run: string)
    requires Inv(h)
    ensures Inv(h.(curRun := run))
  {
    var h' := h.(curRun := run);
    StreamsFrame(h, h');
  }

  lemma {:induction false} RunInv(h: Hub, steps: seq<Step>)
    requires Inv(h) && OwnedRun(h, steps)
    ensures Inv(Run(h, steps))
  {
    if steps != [] {
      var h1 := Run(h, steps[..|steps| - 1]);
      RunInv(h, steps[..|steps| - 1]);
      if Enabled(h1, steps[|steps| - 1]) { StepInv(h1, steps[|steps| - 1]); }
    }
  }
}

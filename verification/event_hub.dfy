/** ai-runtime/agent/event_hub.go, method by method, against the state machine of HubModel. */
module EventHubImpl {
  import opened Events
  import opened HubModel

  class EventHub {
    const journaled: bool
    var nextSeq: nat
    var earliest: nat
    var latest: nat
    var integrity: Integrity
    var subs: set<nat>
    var nextSubId: nat
    var streams: map<nat, Stream>
    var log: seq<EventRecord>
    var curRun: string
    var deltaBuf: map<EventType, PendingDelta>
    var timerArmed: bool
    var closed: bool
    ghost var hist: seq<SessionEvent>
    ghost var lost: set<SessionEvent>

    ghost function State(): Hub
      reads this
    {
      Hub(journaled, nextSeq, earliest, latest, integrity, subs, nextSubId, streams, log, curRun, deltaBuf,
          timerArmed, closed, hist, lost)
    }

    /** NewEventHub; SeqRange is the loop over the retained records. */
    constructor (journal: Option<seq<EventRecord>>)
      ensures State() == NewHub(journal)
    {
      journaled := journal.Some?;
      subs, nextSubId, streams := {}, 0, map[];
      curRun, deltaBuf, timerArmed, closed := "", map[], false, false;
      log := if journal.Some? then journal.value else [];
      hist := if journal.Some? then SortBySeq(ExpandAll(journal.value)) else [];
      lost := {};
      var lo, hi, found := 0, 0, false;
      if journal.Some? {
        var recs := journal.value;
        for i := 0 to |recs|
          invariant found <==> i > 0
          invariant i > 0 ==> lo == MinSeq(recs[..i]) && hi == MaxSeq(recs[..i])
          invariant i == 0 ==> lo == hi == 0
        {
          assert recs[..i + 1][..i] == recs[..i];
          if !found {
            lo, hi, found := recs[i].seqNo, recs[i].seqNo, true;
          } else {
            if recs[i].seqNo < lo { lo := recs[i].seqNo; }
            if recs[i].seqNo > hi { hi := recs[i].seqNo; }
          }
        }
        assert recs[..|recs|] == recs;
      }
      earliest, latest := lo, hi;
      integrity := if found then Unknown else Complete;
      nextSeq := hi + 1;
    }

    method FanOut(ev: SessionEvent)
      requires subs <= streams.Keys
      modifies this`subs, this`streams, this`hist
      ensures State() == HubModel.FanOut(old(State()), ev)
    {
      ghost var h := State();
      var todo := subs;
      while todo != {}
        modifies this`subs, this`streams
        invariant todo <= h.subs
        invariant streams == OfferAll(h.streams, h.subs - todo, ev)
        invariant subs == todo + StillRegistered(h.streams, h.subs - todo, ev)
      {
        var id :| id in todo;
        OfferOne(h.streams, h.subs - todo, id, ev);
        assert h.subs - (todo - {id}) == h.subs - todo + {id};
        todo := todo - {id};
        var s := streams[id];
        if ev.seqNo > s.watermark {
          if |s.live| < SUBSCRIBER_BUFFER {
            streams := streams[id := s.(live := s.live + [ev])];
          } else {
            subs := subs - {id};
            streams := streams[id := s.(disconnected := true)];
          }
        }
      }
      assert h.subs - todo == h.subs;
      hist := hist + [ev];
    }

    method FlushDeltaType(typ: EventType, fails: set<EventType>)
      modifies this`deltaBuf, this`log, this`integrity, this`lost
      ensures State() == FlushType(old(State()), typ, fails)
    {
      if typ !in deltaBuf { return; }
      var b := deltaBuf[typ];
      deltaBuf := deltaBuf - {typ};
      if typ in fails {
        integrity := Incomplete;
        lost := lost + set e | e in BucketEvents(typ, b);
      } else {
        log := log + [EventRecord(b.run, typ, b.toSeq, b.fromSeq, Batch(b.parts))];
      }
    }

    method FlushAllDelta(order: seq<EventType>, fails: set<EventType>)
      modifies this`deltaBuf, this`log, this`integrity, this`lost, this`timerArmed
      ensures State() == FlushAll(old(State()), order, fails)
    {
      ghost var h := State();
      for i := 0 to |order|
        invariant State() == FlushTypes(h, order[..i], fails)
      {
        assert order[..i + 1][..i] == order[..i];
        FlushDeltaType(order[i], fails);
      }
      assert order[..|order|] == order;
      timerArmed := false;
    }

    method BufferDelta(ev: SessionEvent, size: nat, fails: set<EventType>)
      modifies this`deltaBuf, this`log, this`integrity, this`lost, this`timerArmed
      ensures State() == HubModel.BufferDelta(old(State()), ev, size, fails)
    {
      hide FlushType;
      ghost var h := State();
      if ev.typ !in deltaBuf {
        deltaBuf := deltaBuf[ev.typ := PendingDelta(ev.run, ev.seqNo, 0, [], 0)];
        if !timerArmed { timerArmed := true; }
      }
      var b := deltaBuf[ev.typ];
      deltaBuf := deltaBuf[ev.typ := PendingDelta(b.run, b.fromSeq, ev.seqNo, b.parts + [DeltaPart(ev.seqNo, ev.payload)],
                                                 b.bytes + size)];
      assert State() == PutDelta(h, ev, size);
      if deltaBuf[ev.typ].bytes >= DELTA_FLUSH_BYTES {
        FlushDeltaType(ev.typ, fails);
        if deltaBuf == map[] { timerArmed := false; }
      }
    }

    method Publish(run: string, typ: EventType, payload: Payload, size: nat, fails: set<EventType>)
      returns (out: PublishOutcome)
      requires subs <= streams.Keys
      modifies this
      ensures State() == HubModel.Publish(old(State()), run, typ, payload, size, fails).0
      ensures out == HubModel.Publish(old(State()), run, typ, payload, size, fails).1
    {
      if closed { return PublishClosed; }
      ghost var h := State();
      var sn := nextSeq;
      nextSeq := nextSeq + 1;
      var runId := if run == "" then curRun else run;
      var ev := SessionEvent(runId, sn, typ, payload);
      if IsKeyEvent(typ) {
        if journaled {
          if typ in fails {
            integrity := Incomplete;
            return AppendFailed;
          }
          log := log + [EventRecord(runId, typ, sn, 0, payload)];
        }
        latest := sn;
        FanOut(ev);
        return Published;
      }
      latest := sn;
      FanOut(ev);
      assert State() == Broadcast(h, ev);
      if journaled { BufferDelta(ev, size, fails); }
      return Published;
    }

    method BeginRun(run: string, order: seq<EventType>, fails: set<EventType>)
      modifies this
      ensures State() == HubModel.BeginRun(old(State()), run, order, fails)
    {
      if closed { return; }
      FlushAllDelta(order, fails);
      curRun := run;
    }

    method EndRun(order: seq<EventType>, fails: set<EventType>)
      modifies this
      ensures State() == HubModel.EndRun(old(State()), order, fails)
    {
      if closed { return; }
      FlushAllDelta(order, fails);
      curRun := "";
    }

    method FlushDeltaOnTimer(order: seq<EventType>, fails: set<EventType>)
      modifies this
      ensures State() == TimerFires(old(State()), order, fails)
    {
      if closed { return; }
      FlushAllDelta(order, fails);
    }

    /** One record of the replay loop: its events above the cursor, and whether reading it
        has to be reported. */
    method ExpandRecord(rec: EventRecord, cursor: nat) returns (events: seq<SessionEvent>, damaged: bool)
      requires rec.seqNo > cursor
      ensures events == After(Expand(rec), cursor) && damaged == Damaged(rec)
    {
      var whole := SessionEvent(rec.run, rec.seqNo, rec.typ, rec.payload);
      AfterSnoc([], whole, cursor);
      assert [] + [whole] == [whole];
      if rec.fromSeq == 0 { return [whole], false; }
      if rec.payload.StringLiteral? { return [whole], true; }
      if rec.payload.Plain? || !ValidDeltaBatch(rec.payload.parts, rec.fromSeq, rec.seqNo) { return [], true; }
      var parts := PartsToEvents(rec.run, rec.typ, rec.payload.parts);
      events, damaged := [], false;
      for j := 0 to |parts|
        invariant events == After(parts[..j], cursor)
      {
        assert parts[..j + 1] == parts[..j] + [parts[j]];
        AfterSnoc(parts[..j], parts[j], cursor);
        if parts[j].seqNo > cursor { events := events + [parts[j]]; }
      }
      assert parts[..|parts|] == parts;
    }

    method ExpandReplay(recs: seq<EventRecord>, cursor: nat) returns (replay: seq<SessionEvent>, damaged: bool)
      requires forall i :: 0 <= i < |recs| ==> recs[i].seqNo > cursor
      ensures replay == After(ExpandAll(recs), cursor)
      ensures damaged == AnyDamaged(recs)
    {
      replay, damaged := [], false;
      for i := 0 to |recs|
        invariant replay == After(ExpandAll(recs[..i]), cursor)
        invariant damaged == AnyDamaged(recs[..i])
      {
        var events, bad := ExpandRecord(recs[i], cursor);
        assert recs[..i + 1][..i] == recs[..i];
        AfterConcat(ExpandAll(recs[..i]), Expand(recs[i]), cursor);
        replay, damaged := replay + events, damaged || bad;
      }
      assert recs[..|recs|] == recs;
    }

    /** Subscribe, step two: the sorted snapshot, with the integrity it implies. */
    method TakeSnapshot(cursor: nat) returns (replay: seq<SessionEvent>)
      modifies this`integrity
      ensures replay == Replay(log, cursor)
      ensures integrity == if AnyDamaged(ReadEvents(log, cursor)) then Incomplete else old(integrity)
    {
      var recs := ReadEvents(log, cursor);
      ReadsAbove(log, cursor);
      var damaged;
      replay, damaged := ExpandReplay(recs, cursor);
      if damaged { integrity := Incomplete; }
      replay := SortBySeq(replay);
    }

    method Subscribe(cursor: nat, order: seq<EventType>, fails: set<EventType>, readOk: bool)
      returns (out: SubscribeOutcome)
      modifies this
      ensures State() == HubModel.Subscribe(old(State()), cursor, order, fails, readOk).0
      ensures out == HubModel.Subscribe(old(State()), cursor, order, fails, readOk).1
    {
      hide FlushAll, Replay, ReadEvents, AnyDamaged;
      if closed { return SubscribeClosed; }
      if cursor > latest || (cursor != 0 && cursor + 1 < earliest) { return CursorExpired; }
      var replay := [];
      var id := nextSubId;
      if journaled {
        FlushKeepsSubs(State(), order, fails);
        FlushAllDelta(order, fails);
        if !readOk { return ReadFailed; }
        replay := TakeSnapshot(cursor);
      }
      nextSubId := nextSubId + 1;
      subs := subs + {id};
      streams := streams[id := Stream(cursor, latest, replay, 0, [], false, None, 0, [], [], false, false)];
      return Subscribed(id);
    }

    method RemoveSub(id: nat)
      modifies this`subs
      ensures State() == old(State()).(subs := old(subs) - {id})
    {
      subs := subs - {id};
    }

    method DisconnectSubs()
      requires subs <= streams.Keys
      modifies this`subs, this`streams
      ensures subs == {} && streams == DisconnectAll(old(streams), old(subs))
    {
      ghost var all, before := subs, streams;
      while subs != {}
        invariant subs <= all
        invariant streams == DisconnectAll(before, all - subs)
      {
        var id :| id in subs;
        assert all - (subs - {id}) == all - subs + {id};
        subs := subs - {id};
        streams := streams[id := streams[id].(disconnected := true)];
      }
      assert all - subs == all;
    }

    method Close(order: seq<EventType>, fails: set<EventType>)
      requires subs <= streams.Keys
      modifies this
      ensures State() == HubModel.Close(old(State()), order, fails)
    {
      if closed { return; }
      closed := true;
      FlushKeepsSubs(State(), order, fails);
      FlushAllDelta(order, fails);
      DisconnectSubs();
    }
  }

  lemma OfferOne(streams: map<nat, Stream>, done: set<nat>, id: nat, ev: SessionEvent)
    requires id in streams && id !in done
    ensures OfferAll(streams, done, ev)[id] == streams[id]
    ensures OfferAll(streams, done + {id}, ev) ==
      if Wants(streams[id], ev) then OfferAll(streams, done, ev)[id := Offer(streams[id], ev)]
      else OfferAll(streams, done, ev)
    ensures StillRegistered(streams, done + {id}, ev) ==
      StillRegistered(streams, done, ev) + if Overflows(streams, id, ev) then {} else {id}
  {}

  lemma {:induction false} ReadsAbove(log: seq<EventRecord>, after: nat)
    ensures forall i :: 0 <= i < |ReadEvents(log, after)| ==> ReadEvents(log, after)[i].seqNo > after
  {
    if log != [] { ReadsAbove(log[..|log| - 1], after); }
  }

  lemma {:induction false} FlushKeepsSubs(h: Hub, order: seq<EventType>, fails: set<EventType>)
    ensures var h' := FlushTypes(h, order, fails);
      h'.subs == h.subs && h'.streams == h.streams && h'.nextSubId == h.nextSubId && h'.latest == h.latest
  {
    if order != [] { FlushKeepsSubs(h, order[..|order| - 1], fails); }
  }
}

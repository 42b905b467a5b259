/** What the hub promises its subscribers, over every run of the step relation. */
module HubTheorems {
  import opened Events
  import opened HubModel
  import opened HubDelivery

  /** The main result. Whatever the interleaving, the consumer has received a prefix of what
      it is entitled to, in strictly increasing order; it is entitled to exactly the events
      above its cursor, except those of a failed batch it subscribed after; and while the hub
      does not report Incomplete there is no exception: no gap, no duplicate, no reordering
      across the switch from replay to live. */
  lemma {:induction false} Delivery(journal: Option<seq<EventRecord>>, steps: seq<Step>, id: nat)
    requires (journal.Some? ==> ReadableHistory(journal.value)) && OwnedRun(NewHub(journal), steps)
    requires id in Run(NewHub(journal), steps).streams
    ensures var h := Run(NewHub(journal), steps); var s := h.streams[id];
      && s.received <= Target(s, h.hist)
      && Increasing(s.received)
      && (forall e :: e in Target(s, h.hist) <==>
            && e in h.hist
            && e.seqNo > (if h.journaled then s.cursor else s.watermark)
            && (e in h.lost ==> e.seqNo > s.watermark))
      && (h.journaled && h.integrity != Incomplete ==> s.received <= After(h.hist, s.cursor))
  {
    var h := Run(NewHub(journal), steps);
    NewHubInv(journal);
    RunInv(NewHub(journal), steps);
    Entitled(h, id);
    ReceivedInOrder(h, id);
  }

  lemma ReceivedInOrder(h: Hub, id: nat)
    requires Inv(h) && id in h.streams
    ensures h.streams[id].received <= Target(h.streams[id], h.hist) && Increasing(h.streams[id].received)
  {
    var s := h.streams[id];
    TargetIncreasing(h, id);
    assert PumpOk(s, id in h.subs, h.hist);
    assert s.received <= Delivered(s) <= Flow(s);
  }

  lemma Entitled(h: Hub, id: nat)
    requires Inv(h) && id in h.streams
    ensures var s := h.streams[id];
      && (forall e :: e in Target(s, h.hist) <==>
            && e in h.hist
            && e.seqNo > (if h.journaled then s.cursor else s.watermark)
            && (e in h.lost ==> e.seqNo > s.watermark))
      && (h.journaled && h.integrity != Incomplete ==> Target(s, h.hist) == After(h.hist, s.cursor))
  {
    var s := h.streams[id];
    assert SnapshotOk(s, h);
    AfterMembers(h.hist, s.watermark);
    SelectMembers(h.hist, h.lost, s.cursor, s.watermark);
    if h.journaled && h.integrity != Incomplete {
      AfterMembers(h.hist, s.cursor);
      AfterIncreasing(h.hist, s.cursor);
      TargetIncreasing(h, id);
      IncreasingUnique(Target(s, h.hist), After(h.hist, s.cursor));
    }
  }

  /** A subscriber that was not dropped and has nothing in transit has been sent everything
      it is entitled to. */
  lemma {:induction false} CaughtUp(journal: Option<seq<EventRecord>>, steps: seq<Step>, id: nat)
    requires (journal.Some? ==> ReadableHistory(journal.value)) && OwnedRun(NewHub(journal), steps)
    requires var h := Run(NewHub(journal), steps);
      && id in h.subs && id in h.streams && h.streams[id].sent == |h.streams[id].replay|
      && h.streams[id].held.None? && h.streams[id].live == [] && h.streams[id].ch == []
    ensures var h := Run(NewHub(journal), steps);
      h.streams[id].received == Target(h.streams[id], h.hist)
  {
    var h := Run(NewHub(journal), steps);
    NewHubInv(journal);
    RunInv(NewHub(journal), steps);
    var s := h.streams[id];
    assert PumpOk(s, true, h.hist);
    assert Flow(s) == s.received;
  }

  /** Every broadcast event is in exactly one place, and key events are never anywhere but in
      the journal. */
  lemma {:induction false} EveryEventKept(log: seq<EventRecord>, steps: seq<Step>, e: SessionEvent)
    requires ReadableHistory(log) && OwnedRun(NewHub(Some(log)), steps) && e in Run(NewHub(Some(log)), steps).hist
    ensures var h := Run(NewHub(Some(log)), steps);
      && (e in ExpandAll(h.log) || InBuf(h.deltaBuf, e) || e in h.lost)
      && !(e in ExpandAll(h.log) && InBuf(h.deltaBuf, e))
      && !(e in ExpandAll(h.log) && e in h.lost)
      && !(InBuf(h.deltaBuf, e) && e in h.lost)
      && (IsKeyEvent(e.typ) ==> e in ExpandAll(h.log))
      && (e in h.lost ==> h.integrity == Incomplete)
      && (InBuf(h.deltaBuf, e) ==> h.timerArmed)
  {
    NewHubInv(Some(log));
    RunInv(NewHub(Some(log)), steps);
    RunJournaled(NewHub(Some(log)), steps);
  }

  lemma {:induction false} FlushTypesJournaled(h: Hub, order: seq<EventType>, fails: set<EventType>)
    ensures FlushTypes(h, order, fails).journaled == h.journaled
  {
    if order != [] { FlushTypesJournaled(h, order[..|order| - 1], fails); }
  }

  lemma StepJournaled(h: Hub, step: Step)
    requires Enabled(h, step)
    ensures Apply(h, step).journaled == h.journaled
  {
    match step
    case DoBeginRun(_, order, fails) => FlushTypesJournaled(h, order, fails);
    case DoEndRun(order, fails) => FlushTypesJournaled(h, order, fails);
    case DoTimer(order, fails) => FlushTypesJournaled(h, order, fails);
    case DoClose(order, fails) => FlushTypesJournaled(h.(closed := true), order, fails);
    case DoSubscribe(_, order, fails, _) => FlushTypesJournaled(h, order, fails);
    case _ =>
  }

  lemma {:induction false} RunJournaled(h: Hub, steps: seq<Step>)
    ensures Run(h, steps).journaled == h.journaled
  {
    if steps != [] {
      var h1 := Run(h, steps[..|steps| - 1]);
      RunJournaled(h, steps[..|steps| - 1]);
      if Enabled(h1, steps[|steps| - 1]) { StepJournaled(h1, steps[|steps| - 1]); }
    }
  }

  /** On a hub over an empty journal that still says Complete after Subscribe(0), the replay
      handed to that subscriber is the whole broadcast history. */
  lemma {:induction false} CompleteReplay(steps: seq<Step>, order: seq<EventType>, fails: set<EventType>)
    requires OwnedRun(NewHub(Some([])), steps)
    requires var h := Run(NewHub(Some([])), steps);
      && Walks(h, order)
      && Subscribe(h, 0, order, fails, true).1.Subscribed?
      && Subscribe(h, 0, order, fails, true).0.integrity == Complete
    ensures var h := Run(NewHub(Some([])), steps);
      var h' := Subscribe(h, 0, order, fails, true).0;
      h.nextSubId in h'.streams && h'.streams[h.nextSubId].replay == h.hist
  {
    var h := Run(NewHub(Some([])), steps);
    NewHubInv(Some([]));
    RunInv(NewHub(Some([])), steps);
    RunJournaled(NewHub(Some([])), steps);
    SnapshotIsHistory(h, order, fails);
    SnapshotTaken(h, 0, order, fails);
  }

  lemma SnapshotTaken(h: Hub, cursor: nat, order: seq<EventType>, fails: set<EventType>)
    requires h.journaled && Subscribe(h, cursor, order, fails, true).1.Subscribed?
    ensures var h1, h' := FlushAll(h, order, fails), Subscribe(h, cursor, order, fails, true).0;
      && FlushAll(h, order, fails).nextSubId in h'.streams
      && h'.streams[h1.nextSubId].replay == Replay(h1.log, cursor)
      && (h1.integrity == Incomplete ==> h'.integrity == Incomplete)
  {}

  lemma SnapshotIsHistory(h: Hub, order: seq<EventType>, fails: set<EventType>)
    requires Inv(h) && h.journaled && Walks(h, order)
    ensures var h1 := FlushAll(h, order, fails);
      h1.hist == h.hist && h1.nextSubId == h.nextSubId && (h1.integrity != Incomplete ==> Replay(h1.log, 0) == h.hist)
  {
    FlushAllInv(h, order, fails);
    ReplayIsSelection(FlushAll(h, order, fails), 0);
    WholeSelection(h.hist, h.latest);
  }

  lemma {:induction false} WholeSelection(s: seq<SessionEvent>, hi: nat)
    requires forall i :: 0 <= i < |s| ==> 1 <= s[i].seqNo <= hi
    ensures Select(s, {}, 0, hi) == s
  {
    if s != [] {
      WholeSelection(s[..|s| - 1], hi);
      assert s == s[..|s| - 1] + [s[|s| - 1]];
    }
  }

  // ---------------------------------------------------------------- honest reporting

  ghost function Fails(step: Step): set<EventType> {
    match step
    case DoPublish(_, _, _, _, fails) => fails
    case DoBeginRun(_, _, fails) => fails
    case DoEndRun(_, fails) => fails
    case DoTimer(_, fails) => fails
    case DoClose(_, fails) => fails
    case DoSubscribe(_, _, fails, _) => fails
    case _ => {}
  }

  ghost predicate Healthy(h: Hub) {
    h.journaled && !AnyDamaged(h.log) && h.integrity == Complete && h.lost == {}
  }

  lemma FlushTypeHealthy(h: Hub, typ: EventType)
    requires Healthy(h) && BucketsOk(h.deltaBuf)
    ensures Healthy(FlushType(h, typ, {})) && BucketsOk(FlushType(h, typ, {}).deltaBuf)
  {
    if typ in h.deltaBuf {
      var b := h.deltaBuf[typ];
      Snoc(h.log, EventRecord(b.run, typ, b.toSeq, b.fromSeq, Batch(b.parts)));
    }
  }

  lemma {:induction false} FlushTypesHealthy(h: Hub, order: seq<EventType>)
    requires Healthy(h) && BucketsOk(h.deltaBuf)
    ensures Healthy(FlushTypes(h, order, {})) && BucketsOk(FlushTypes(h, order, {}).deltaBuf)
  {
    if order != [] {
      FlushTypesHealthy(h, order[..|order| - 1]);
      FlushTypeHealthy(FlushTypes(h, order[..|order| - 1], {}), order[|order| - 1]);
    }
  }

  lemma {:induction false} ReadTidy(log: seq<EventRecord>, after: nat)
    requires !AnyDamaged(log)
    ensures !AnyDamaged(ReadEvents(log, after))
  {
    if log != [] {
      ReadTidy(log[..|log| - 1], after);
      Snoc(ReadEvents(log[..|log| - 1], after), log[|log| - 1]);
    }
  }

  lemma PublishHealthy(h: Hub, run: string, typ: EventType, payload: Payload, size: nat)
    requires Inv(h) && Healthy(h) && SameRun(h, run, typ)
    ensures Healthy(Publish(h, run, typ, payload, size, {}).0)
  {
    if !h.closed && !IsKeyEvent(typ) {
      var ev := SessionEvent(Resolve(h, run), h.nextSeq, typ, payload);
      BufferedCore(h, ev, size);
      FlushTypeHealthy(Buffered(h, ev, size), typ);
    } else if !h.closed {
      Snoc(h.log, EventRecord(Resolve(h, run), typ, h.nextSeq, 0, payload));
    }
  }

  lemma SubscribeHealthy(h: Hub, cursor: nat, order: seq<EventType>, readOk: bool)
    requires Healthy(h) && BucketsOk(h.deltaBuf)
    ensures Healthy(Subscribe(h, cursor, order, {}, readOk).0)
  {
    FlushTypesHealthy(h, order);
    ReadTidy(FlushAll(h, order, {}).log, cursor);
  }

  lemma StepHealthy(h: Hub, step: Step)
    requires Inv(h) && Healthy(h) && Enabled(h, step) && Owned(h, step) && Fails(step) == {}
    ensures Healthy(Apply(h, step))
  {
    match step
    case DoPublish(run, typ, payload, size, fails) => PublishHealthy(h, run, typ, payload, size);
    case DoBeginRun(_, order, _) => FlushTypesHealthy(h, order);
    case DoEndRun(order, _) => FlushTypesHealthy(h, order);
    case DoTimer(order, _) => FlushTypesHealthy(h, order);
    case DoClose(order, _) => FlushTypesHealthy(h.(closed := true), order);
    case DoSubscribe(cursor, order, _, readOk) => SubscribeHealthy(h, cursor, order, readOk);
    case _ =>
  }

  /** The reverse of the promise behind Complete: on a journal this hub started, it is given
      up only when an append really failed. */
  lemma {:induction false} CompleteUnlessAppendFailed(steps: seq<Step>)
    requires OwnedRun(NewHub(Some([])), steps) && forall i :: 0 <= i < |steps| ==> Fails(steps[i]) == {}
    ensures Healthy(Run(NewHub(Some([])), steps))
  {
    var h0 := NewHub(Some([]));
    if steps != [] {
      var init := steps[..|steps| - 1];
      CompleteUnlessAppendFailed(init);
      NewHubInv(Some([]));
      RunInv(h0, init);
      if Enabled(Run(h0, init), steps[|steps| - 1]) { StepHealthy(Run(h0, init), steps[|steps| - 1]); }
    }
  }

  // ---------------------------------------------------------------- restart

  /** A crash keeps the journal and nothing else. Whatever state it hits, a new hub can be
      opened on what was written, and its history is exactly the broadcast events that were
      neither pending nor lost. */
  lemma {:induction false} Restart(log: seq<EventRecord>, steps: seq<Step>)
    requires ReadableHistory(log) && OwnedRun(NewHub(Some(log)), steps)
    ensures var h := Run(NewHub(Some(log)), steps);
      && ReadableHistory(h.log)
      && Inv(NewHub(Some(h.log)))
      && forall e :: e in NewHub(Some(h.log)).hist <==> e in h.hist && !InBuf(h.deltaBuf, e) && e !in h.lost
  {
    var h := Run(NewHub(Some(log)), steps);
    NewHubInv(Some(log));
    RunInv(NewHub(Some(log)), steps);
    RunJournaled(NewHub(Some(log)), steps);
    assert forall e :: e in ExpandAll(h.log) ==> e in h.hist;
    NewHubInv(Some(h.log));
    SortIncreasing(ExpandAll(h.log));
  }

  // ---------------------------------------------------------------- two exact conditions

  function FirstSeq(events: seq<SessionEvent>): nat
    requires events != []
  {
    if |events| == 1 then events[0].seqNo
    else
      var m := FirstSeq(events[..|events| - 1]);
      var last := events[|events| - 1].seqNo;
      if last < m then last else m
  }

  /** ErrCursorExpired is meant for a cursor whose next event is no longer retained. The hub
      decides with the smallest END number of a record, so a history whose earliest record is
      a batch turns away cursors that could be served. The two agree for every cursor exactly
      when that end number is also the first retained number, or both are at most 2. */
  lemma {:induction false} CursorWindow(log: seq<EventRecord>)
    requires log != [] && ExpandAll(log) != []
    ensures (forall c: nat :: c <= MaxSeq(log) ==>
              (Rejects(NewHub(Some(log)), c) <==> Expired(c, FirstSeq(ExpandAll(log)))))
            <==> (MinSeq(log) == FirstSeq(ExpandAll(log)) || (MinSeq(log) <= 2 && FirstSeq(ExpandAll(log)) <= 2))
  {
    MinAtMostMax(log);
    FirstAtMostMax(log);
    WindowsAgree(MinSeq(log), FirstSeq(ExpandAll(log)), MaxSeq(log));
    assert forall c: nat :: c <= MaxSeq(log) ==> (Rejects(NewHub(Some(log)), c) <==> Expired(c, MinSeq(log)));
  }

  lemma {:induction false} FirstAtMostMax(log: seq<EventRecord>)
    requires log != [] && ExpandAll(log) != []
    ensures FirstSeq(ExpandAll(log)) <= MaxSeq(log)
  {
    MaxBounds(log);
    FirstIsMember(ExpandAll(log));
  }

  lemma WindowsAgree(a: nat, b: nat, latest: nat)
    requires a <= latest && b <= latest
    ensures (forall c: nat :: c <= latest ==> (Expired(c, a) <==> Expired(c, b))) <==> (a == b || (a <= 2 && b <= 2))
  {
    if a > b && a > 2 { assert Expired(a - 2, a) != Expired(a - 2, b); }
    if b > a && b > 2 { assert Expired(b - 2, a) != Expired(b - 2, b); }
  }

  lemma {:induction false} FirstIsMember(events: seq<SessionEvent>)
    requires events != []
    ensures exists e :: e in events && e.seqNo == FirstSeq(events)
  {
    if |events| == 1 {
      assert events[0] in events;
    } else {
      FirstIsMember(events[..|events| - 1]);
      assert events[|events| - 1] in events;
    }
  }

  lemma {:induction false} MinAtMostMax(log: seq<EventRecord>)
    requires log != []
    ensures MinSeq(log) <= MaxSeq(log)
  {
    if |log| > 1 { MinAtMostMax(log[..|log| - 1]); }
  }

  /** Batches name one run only. A delta put into a bucket that another run opened comes back
      under the wrong run: it is replayed as it was broadcast exactly when the runs agree. */
  lemma ReplayKeepsRun(h: Hub, ev: SessionEvent, size: nat)
    requires Inv(h) && h.journaled && ev.typ in h.deltaBuf && ev.seqNo == h.nextSeq
    ensures var b := Bucketed(h, ev, size);
      var rec := EventRecord(b.run, ev.typ, b.toSeq, b.fromSeq, Batch(b.parts));
      ev in Expand(rec) <==> h.deltaBuf[ev.typ].run == ev.run
  {
    var b0, b := h.deltaBuf[ev.typ], Bucketed(h, ev, size);
    var events := BucketEvents(ev.typ, b0);
    PendingBelow(h, ev);
    assert forall e :: e in events ==> InBuf(h.deltaBuf, e);
    assert events[|events| - 1] in events;
    assert ValidDeltaBatch(b.parts, b.fromSeq, b.toSeq);
    var rec := EventRecord(b.run, ev.typ, b.toSeq, b.fromSeq, Batch(b.parts));
    assert Expand(rec) == BucketEvents(ev.typ, b);
    assert Expand(rec)[|events|] == SessionEvent(b0.run, ev.seqNo, ev.typ, ev.payload);
  }
}

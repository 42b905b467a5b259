/** What callers hand to the hub and what they are answered. The history that HubTheorems speaks of is
    exactly what was published and accepted; a subscriber gets exactly that. */
module HubRecord {
  import opened Events
  import opened HubModel
  import opened HubDelivery
  import opened HubTheorems

  // ---------------------------------------------------------------- what callers did

  /** Step i was possible when it came. */
  ghost predicate Took(h: Hub, steps: seq<Step>, i: nat)
    requires i < |steps|
  {
    Enabled(Run(h, steps[..i]), steps[i])
  }

  /** Somebody closed the hub. */
  ghost predicate ClosedBy(h: Hub, steps: seq<Step>) {
    exists i :: 0 <= i < |steps| && steps[i].DoClose? && Took(h, steps, i)
  }

  /** The run named by the last BeginRun that no EndRun followed. */
  ghost function NamedBy(h: Hub, steps: seq<Step>): string {
    if steps == [] then ""
    else
      var init, last := steps[..|steps| - 1], steps[|steps| - 1];
      if !Took(h, steps, |steps| - 1) || ClosedBy(h, init) then NamedBy(h, init)
      else
        match last
        case DoBeginRun(run, _, _) => run
        case DoEndRun(_, _) => ""
        case _ => NamedBy(h, init)
  }

  /** A key event whose record is not written is refused; a hub without journal writes none. */
  predicate Refuses(journaled: bool, step: Step) {
    step.DoPublish? && journaled && IsKeyEvent(step.typ) && step.typ in step.fails
  }

  /** The number the next event gets: each event that came to an open hub used one up. */
  ghost function NumberAfter(h: Hub, steps: seq<Step>, first: nat): nat {
    if steps == [] then first
    else
      var init := steps[..|steps| - 1];
      NumberAfter(h, init, first) + if steps[|steps| - 1].DoPublish? && !ClosedBy(h, init) then 1 else 0
  }

  /** The events of the accepted calls, in order: the text as it came, the run as it was given or, where
      none was given, as the last BeginRun named it. */
  ghost function AcceptedEvents(h: Hub, steps: seq<Step>, first: nat): seq<SessionEvent> {
    if steps == [] then []
    else
      var init, last := steps[..|steps| - 1], steps[|steps| - 1];
      if last.DoPublish? && !ClosedBy(h, init) && !Refuses(h.journaled, last) then
        AcceptedEvents(h, init, first)
        + [SessionEvent(if last.run == "" then NamedBy(h, init) else last.run, NumberAfter(h, init, first), last.typ, last.payload)]
      else AcceptedEvents(h, init, first)
  }

  /** The number of the last of these events, the hub's own where there is none. */
  function LastNumber(h: Hub, events: seq<SessionEvent>): nat {
    if events == [] then h.latest else events[|events| - 1].seqNo
  }

  // ---------------------------------------------------------------- one step

  lemma {:induction false} FlushesQuietly(h: Hub, order: seq<EventType>, fails: set<EventType>)
    ensures var k := FlushTypes(h, order, fails);
      k.hist == h.hist && k.nextSeq == h.nextSeq && k.latest == h.latest && k.earliest == h.earliest
      && k.closed == h.closed && k.curRun == h.curRun && k.journaled == h.journaled
      && k.streams == h.streams && k.subs == h.subs && k.nextSubId == h.nextSubId
  {
    if order != [] { FlushesQuietly(h, order[..|order| - 1], fails); }
  }

  lemma BuffersQuietly(h: Hub, ev: SessionEvent, size: nat, fails: set<EventType>)
    ensures var k := BufferDelta(h, ev, size, fails);
      k.hist == h.hist && k.nextSeq == h.nextSeq && k.latest == h.latest && k.earliest == h.earliest
      && k.closed == h.closed && k.curRun == h.curRun && k.journaled == h.journaled
      && k.streams == h.streams && k.subs == h.subs && k.nextSubId == h.nextSubId
  {
    hide FlushType, Bucketed, OfferAll, StillRegistered;
    FlushesOne(PutDelta(h, ev, size), ev.typ, fails);
  }

  lemma FlushesOne(h: Hub, typ: EventType, fails: set<EventType>)
    ensures var k := FlushType(h, typ, fails);
      k.hist == h.hist && k.nextSeq == h.nextSeq && k.latest == h.latest && k.earliest == h.earliest
      && k.closed == h.closed && k.curRun == h.curRun && k.journaled == h.journaled
      && k.streams == h.streams && k.subs == h.subs && k.nextSubId == h.nextSubId
  {}

  lemma PublishRecords(h: Hub, run: string, typ: EventType, payload: Payload, size: nat, fails: set<EventType>)
    requires !h.closed
    ensures var k := Publish(h, run, typ, payload, size, fails).0;
      && k.nextSeq == h.nextSeq + 1 && !k.closed && k.curRun == h.curRun && k.journaled == h.journaled
      && k.earliest == h.earliest
      && k.latest == (if Refuses(h.journaled, DoPublish(run, typ, payload, size, fails)) then h.latest else h.nextSeq)
      && k.hist == if Refuses(h.journaled, DoPublish(run, typ, payload, size, fails)) then h.hist
                   else h.hist + [SessionEvent(if run == "" then h.curRun else run, h.nextSeq, typ, payload)]
  {
    hide BufferDelta, OfferAll, StillRegistered;
    var ev := SessionEvent(Resolve(h, run), h.nextSeq, typ, payload);
    BuffersQuietly(Broadcast(h, ev), ev, size, fails);
  }

  lemma OtherRecords(h: Hub, step: Step)
    requires Enabled(h, step) && !step.DoPublish?
    ensures var k := Apply(h, step);
      && k.hist == h.hist && k.nextSeq == h.nextSeq && k.journaled == h.journaled
      && k.latest == h.latest && k.earliest == h.earliest
      && (k.closed <==> h.closed || step.DoClose?)
      && k.curRun == if h.closed then h.curRun
                     else if step.DoBeginRun? then step.run else if step.DoEndRun? then "" else h.curRun
  {
    match step
    case DoBeginRun(_, order, fails) => FlushesQuietly(h, order, fails);
    case DoEndRun(order, fails) => FlushesQuietly(h, order, fails);
    case DoTimer(order, fails) => FlushesQuietly(h, order, fails);
    case DoClose(order, fails) => FlushesQuietly(h.(closed := true), order, fails);
    case DoSubscribe(_, order, fails, _) => FlushesQuietly(h, order, fails);
    case _ =>
  }

  lemma {:induction false} ClosedSnoc(h: Hub, steps: seq<Step>)
    requires steps != []
    ensures var init := steps[..|steps| - 1];
      ClosedBy(h, steps) <==> ClosedBy(h, init) || (steps[|steps| - 1].DoClose? && Took(h, steps, |steps| - 1))
  {
    var init := steps[..|steps| - 1];
    assert forall i :: 0 <= i < |init| ==> init[..i] == steps[..i];
    if ClosedBy(h, steps) && !(steps[|steps| - 1].DoClose? && Took(h, steps, |steps| - 1)) {
      var i :| 0 <= i < |steps| && steps[i].DoClose? && Took(h, steps, i);
      assert Took(h, init, i);
    }
    if ClosedBy(h, init) {
      var i :| 0 <= i < |init| && init[i].DoClose? && Took(h, init, i);
      assert Took(h, steps, i);
    }
  }

  // ---------------------------------------------------------------- the history is what was published

  /** Over every execution: the history is the retained one and, behind it, the events of exactly the
      accepted calls, in order, each with its own text and run, numbered in the order of the calls with
      the numbers of refused key events left out. */
  lemma {:induction false} HistoryIsPublished(h: Hub, steps: seq<Step>)
    requires !h.closed && h.curRun == ""
    ensures var k := Run(h, steps);
      && k.hist == h.hist + AcceptedEvents(h, steps, h.nextSeq)
      && k.latest == LastNumber(h, AcceptedEvents(h, steps, h.nextSeq)) && k.earliest == h.earliest
      && k.nextSeq == NumberAfter(h, steps, h.nextSeq) && k.journaled == h.journaled
      && (k.closed <==> ClosedBy(h, steps)) && k.curRun == NamedBy(h, steps)
  {
    if steps == [] {
      assert h.hist + [] == h.hist;
    } else {
      var init, last := steps[..|steps| - 1], steps[|steps| - 1];
      HistoryIsPublished(h, init);
      ClosedSnoc(h, steps);
      var k := Run(h, init);
      if last.DoPublish? {
        if !k.closed { PublishRecords(k, last.run, last.typ, last.payload, last.size, last.fails); }
      } else if Enabled(k, last) {
        OtherRecords(k, last);
      }
      HistorySnoc(h, steps, k);
    }
  }

  lemma {:induction false} HistorySnoc(h: Hub, steps: seq<Step>, k: Hub)
    requires steps != [] && k == Run(h, steps[..|steps| - 1])
    ensures Run(h, steps) == if Enabled(k, steps[|steps| - 1]) then Apply(k, steps[|steps| - 1]) else k
    ensures Took(h, steps, |steps| - 1) <==> Enabled(k, steps[|steps| - 1])
  {}

  /** What a caller of Publish is told, over every execution: closed exactly when somebody closed the hub;
      failed exactly when a key event's record was not written, and then nobody hears of the event, its
      number is used up and the replay is reported incomplete; published otherwise. */
  lemma PublishAnswers(h: Hub, steps: seq<Step>, run: string, typ: EventType, payload: Payload, size: nat, fails: set<EventType>)
    requires !h.closed && h.curRun == ""
    ensures var k := Run(h, steps);
      var (t, answer) := Publish(k, run, typ, payload, size, fails);
      && (answer.PublishClosed? <==> ClosedBy(h, steps))
      && (answer.AppendFailed? <==> !ClosedBy(h, steps) && h.journaled && IsKeyEvent(typ) && typ in fails)
      && (answer.PublishClosed? ==> t == k)
      && (answer.AppendFailed? ==> t == k.(nextSeq := k.nextSeq + 1, integrity := Incomplete))
      && (answer.Published? ==>
            t.hist == h.hist + AcceptedEvents(h, steps, h.nextSeq)
              + [SessionEvent(if run == "" then NamedBy(h, steps) else run, NumberAfter(h, steps, h.nextSeq), typ, payload)])
  {
    HistoryIsPublished(h, steps);
    var k := Run(h, steps);
    if !k.closed { PublishRecords(k, run, typ, payload, size, fails); }
  }

  // ---------------------------------------------------------------- subscriptions

  /** Subscriptions are numbered, and keep what they were made with. */
  ghost predicate Kept(a: map<nat, Stream>, b: map<nat, Stream>) {
    forall id :: id in a ==> id in b && b[id].cursor == a[id].cursor && b[id].watermark == a[id].watermark
                             && b[id].replay == a[id].replay
  }

  ghost predicate Below(h: Hub) {
    forall id :: id in h.streams ==> id < h.nextSubId
  }

  lemma PublishKeeps(h: Hub, run: string, typ: EventType, payload: Payload, size: nat, fails: set<EventType>)
    ensures var k := Publish(h, run, typ, payload, size, fails).0;
      Kept(h.streams, k.streams) && k.streams.Keys == h.streams.Keys && k.nextSubId == h.nextSubId
  {
    var ev := SessionEvent(Resolve(h, run), h.nextSeq, typ, payload);
    BuffersQuietly(Broadcast(h, ev), ev, size, fails);
    OffersKeep(h.streams, h.subs, ev);
    hide BufferDelta, OfferAll, StillRegistered, Kept;
    KeptSelf(h.streams);
  }

  lemma OffersKeep(streams: map<nat, Stream>, subs: set<nat>, ev: SessionEvent)
    ensures Kept(streams, OfferAll(streams, subs, ev)) && OfferAll(streams, subs, ev).Keys == streams.Keys
  {}

  lemma KeptSelf(streams: map<nat, Stream>)
    ensures Kept(streams, streams)
  {}

  lemma StepKeeps(h: Hub, step: Step)
    requires Enabled(h, step) && Below(h)
    ensures Kept(h.streams, Apply(h, step).streams) && Below(Apply(h, step))
  {
    hide Publish, FlushTypes, Kept, Below, Offer, OfferAll;
    match step
    case DoPublish(run, typ, payload, size, fails) =>
      PublishKeeps(h, run, typ, payload, size, fails);
      SameBelow(h, Apply(h, step));
    case _ => OtherKeeps(h, step);
  }

  lemma OtherKeeps(h: Hub, step: Step)
    requires Enabled(h, step) && Below(h) && !step.DoPublish?
    ensures Kept(h.streams, Apply(h, step).streams) && Below(Apply(h, step))
  {
    match step
    case DoBeginRun(_, order, fails) => FlushesQuietly(h, order, fails);
    case DoEndRun(order, fails) => FlushesQuietly(h, order, fails);
    case DoTimer(order, fails) => FlushesQuietly(h, order, fails);
    case DoClose(order, fails) => FlushesQuietly(h.(closed := true), order, fails);
    case DoSubscribe(_, order, fails, _) => FlushesQuietly(h, order, fails);
    case _ =>
      hide FlushTypes, Publish, Subscribe, Close;
      PumpKeeps(h, step);
  }

  lemma PumpKeeps(h: Hub, step: Step)
    requires Enabled(h, step) && Below(h)
    requires step.PumpReplay? || step.PumpTake? || step.PumpSend? || step.PumpExit? || step.Cancel? || step.Consume?
    ensures Kept(h.streams, Apply(h, step).streams) && Below(Apply(h, step))
  {}

  lemma SameBelow(h: Hub, k: Hub)
    requires Below(h) && k.streams.Keys == h.streams.Keys && k.nextSubId == h.nextSubId
    ensures Below(k)
  {}

  lemma {:induction false} RunKeeps(h: Hub, steps: seq<Step>, n: nat)
    requires Below(h) && n <= |steps|
    ensures Below(Run(h, steps)) && Kept(Run(h, steps[..n]).streams, Run(h, steps).streams)
  {
    if n == |steps| {
      assert steps[..n] == steps;
      if steps != [] {
        RunKeeps(h, steps[..|steps| - 1], |steps| - 1);
        var k := Run(h, steps[..|steps| - 1]);
        if Enabled(k, steps[|steps| - 1]) { StepKeeps(k, steps[|steps| - 1]); }
      }
    } else {
      RunKeeps(h, steps[..|steps| - 1], n);
      assert steps[..|steps| - 1][..n] == steps[..n];
      var k := Run(h, steps[..|steps| - 1]);
      if Enabled(k, steps[|steps| - 1]) { StepKeeps(k, steps[|steps| - 1]); }
    }
  }

  /** What a subscriber is told, over every execution, and what its subscription starts from. */
  lemma SubscribeAnswers(h: Hub, steps: seq<Step>, cursor: nat, order: seq<EventType>, fails: set<EventType>, readOk: bool)
    requires !h.closed && h.curRun == "" && Below(h)
    ensures var k, latest := Run(h, steps), LastNumber(h, AcceptedEvents(h, steps, h.nextSeq));
      var expired := cursor > latest || (cursor > 0 && cursor + 1 < h.earliest);
      var (t, answer) := Subscribe(k, cursor, order, fails, readOk);
      && (answer.SubscribeClosed? <==> ClosedBy(h, steps))
      && (answer.CursorExpired? <==> !ClosedBy(h, steps) && expired)
      && (answer.ReadFailed? <==> !ClosedBy(h, steps) && !expired && h.journaled && !readOk)
      && (answer.Subscribed? ==>
            && answer.id !in k.streams && answer.id in t.streams && answer.id in t.subs
            && t.streams[answer.id].cursor == cursor && t.streams[answer.id].watermark == latest
            && t.streams == k.streams[answer.id := t.streams[answer.id]] && t.hist == k.hist)
      && (!answer.Subscribed? ==> t.streams == k.streams && t.subs == k.subs)
  {
    HistoryIsPublished(h, steps);
    RunKeeps(h, steps, |steps|);
    FlushesQuietly(Run(h, steps), order, fails);
  }

  /** The replay of a new subscription holds exactly the events of the log above the cursor, and one that
      could not be read in full is reported incomplete; without a journal there is none. */
  lemma {:induction false} ReplayHolds(h: Hub, cursor: nat, order: seq<EventType>, fails: set<EventType>, readOk: bool)
    requires Subscribe(h, cursor, order, fails, readOk).1.Subscribed?
    ensures var (t, answer) := Subscribe(h, cursor, order, fails, readOk);
      && answer.id in t.streams
      && (h.journaled ==>
            && (forall e :: e in t.streams[answer.id].replay <==> e in ExpandAll(t.log) && e.seqNo > cursor)
            && ((exists i :: 0 <= i < |t.log| && t.log[i].seqNo > cursor && Damaged(t.log[i])) ==> t.integrity == Incomplete))
      && (!h.journaled ==> t.streams[answer.id].replay == [])
  {
    if h.journaled {
      var log := FlushAll(h, order, fails).log;
      FlushesQuietly(h, order, fails);
      ReadExpandsExactly(log, cursor);
      AfterMembers(ExpandAll(log), cursor);
      SortKeeps(After(ExpandAll(log), cursor));
      if i :| 0 <= i < |log| && log[i].seqNo > cursor && Damaged(log[i]) { DamageRead(log, cursor, i); }
    }
  }

  lemma {:induction false} InsertKeeps(s: seq<SessionEvent>, e: SessionEvent)
    ensures forall x :: x in Insert(s, e) <==> x in s || x == e
  {
    if s != [] && s[|s| - 1].seqNo > e.seqNo {
      InsertKeeps(s[..|s| - 1], e);
      assert s == s[..|s| - 1] + [s[|s| - 1]];
    }
  }

  lemma {:induction false} SortKeeps(s: seq<SessionEvent>)
    ensures forall x :: x in SortBySeq(s) <==> x in s
  {
    if s != [] {
      SortKeeps(s[..|s| - 1]);
      InsertKeeps(SortBySeq(s[..|s| - 1]), s[|s| - 1]);
      assert s == s[..|s| - 1] + [s[|s| - 1]];
    }
  }

  lemma {:induction false} DamageRead(log: seq<EventRecord>, cursor: nat, i: nat)
    requires i < |log| && log[i].seqNo > cursor && Damaged(log[i])
    ensures AnyDamaged(ReadEvents(log, cursor))
  {
    var n := |log| - 1;
    var rest := ReadEvents(log[..n], cursor);
    if i < n {
      assert log[..n][i] == log[i];
      DamageRead(log[..n], cursor, i);
    }
    assert (rest + [log[n]])[..|rest|] == rest;
  }

  /** A subscriber that cancelled can always leave. */
  lemma {:induction false} CancelledLeaves(h: Hub, steps: seq<Step>, n: nat, id: nat)
    requires Below(h) && n < |steps| && Took(h, steps, n) && steps[n] == Cancel(id)
    ensures var k := Run(h, steps); id in k.streams && (Enabled(k, PumpExit(id)) || k.streams[id].exited)
  {
    var m := |steps| - 1;
    var init := steps[..m];
    if n < m {
      assert init[..n] == steps[..n];
      CancelledLeaves(h, init, n, id);
      CancelledStays(h, init, n, id);
      RunKeeps(h, init, |init|);
      if Enabled(Run(h, init), steps[m]) { StepCancelled(Run(h, init), steps[m], id); }
    }
  }

  lemma {:induction false} CancelledStays(h: Hub, steps: seq<Step>, n: nat, id: nat)
    requires Below(h) && n < |steps| && Took(h, steps, n) && steps[n] == Cancel(id)
    ensures id in Run(h, steps).streams && Run(h, steps).streams[id].cancelled
  {
    var m := |steps| - 1;
    var init := steps[..m];
    if n < m {
      assert init[..n] == steps[..n];
      CancelledStays(h, init, n, id);
      RunKeeps(h, init, |init|);
      if Enabled(Run(h, init), steps[m]) { StepCancelled(Run(h, init), steps[m], id); }
    }
  }

  lemma StepCancelled(h: Hub, step: Step, id: nat)
    requires Enabled(h, step) && id in h.streams && h.streams[id].cancelled && (step.DoSubscribe? ==> h.nextSubId != id)
    ensures id in Apply(h, step).streams && Apply(h, step).streams[id].cancelled
  {
    if step.DoPublish? {
      PublishCancelled(h, step.run, step.typ, step.payload, step.size, step.fails, id);
    } else {
      OtherCancelled(h, step, id);
    }
  }

  lemma PublishCancelled(h: Hub, run: string, typ: EventType, payload: Payload, size: nat, fails: set<EventType>, id: nat)
    requires id in h.streams && h.streams[id].cancelled
    ensures var k := Publish(h, run, typ, payload, size, fails).0; id in k.streams && k.streams[id].cancelled
  {
    hide BufferDelta;
    var ev := SessionEvent(Resolve(h, run), h.nextSeq, typ, payload);
    BuffersQuietly(Broadcast(h, ev), ev, size, fails);
  }

  lemma OtherCancelled(h: Hub, step: Step, id: nat)
    requires Enabled(h, step) && id in h.streams && h.streams[id].cancelled && (step.DoSubscribe? ==> h.nextSubId != id) && !step.DoPublish?
    ensures id in Apply(h, step).streams && Apply(h, step).streams[id].cancelled
  {
    match step
    case DoBeginRun(_, order, fails) => FlushesQuietly(h, order, fails);
    case DoEndRun(order, fails) => FlushesQuietly(h, order, fails);
    case DoTimer(order, fails) => FlushesQuietly(h, order, fails);
    case DoClose(order, fails) => FlushesQuietly(h.(closed := true), order, fails);
    case DoSubscribe(_, order, fails, _) => FlushesQuietly(h, order, fails);
    case _ =>
  }

  /** From the publisher to the subscriber: when nothing is reported lost, a registered subscriber with
      nothing in transit has received exactly what was retained and what was published and accepted,
      above its cursor, in order. */
  lemma PublishedIsReceived(log: seq<EventRecord>, steps: seq<Step>, id: nat)
    requires ReadableHistory(log) && OwnedRun(NewHub(Some(log)), steps)
    requires var h := Run(NewHub(Some(log)), steps);
      && h.integrity != Incomplete && id in h.subs && id in h.streams && h.streams[id].sent == |h.streams[id].replay|
      && h.streams[id].held.None? && h.streams[id].live == [] && h.streams[id].ch == []
    ensures var h := NewHub(Some(log));
      Run(h, steps).streams[id].received
      == After(h.hist + AcceptedEvents(h, steps, h.nextSeq), Run(h, steps).streams[id].cursor)
  {
    var h := NewHub(Some(log));
    NewHubInv(Some(log));
    RunInv(h, steps);
    RunJournaled(h, steps);
    CaughtUp(Some(log), steps, id);
    Entitled(Run(h, steps), id);
    HistoryIsPublished(h, steps);
  }

  /** A closed hub has no registered subscriber. */
  lemma ClosedForGood(log: Option<seq<EventRecord>>, steps: seq<Step>)
    requires (log.Some? ==> ReadableHistory(log.value)) && OwnedRun(NewHub(log), steps) && ClosedBy(NewHub(log), steps)
    ensures Run(NewHub(log), steps).subs == {}
  {
    NewHubInv(log);
    RunInv(NewHub(log), steps);
    HistoryIsPublished(NewHub(log), steps);
  }

  // ---------------------------------------------------------------- buckets

  /** No bucket is full: one that reached 4096 bytes was flushed at once. */
  ghost predicate Small(h: Hub) {
    forall t :: t in h.deltaBuf ==> h.deltaBuf[t].bytes < 4096
  }

  lemma {:induction false} FlushesShrink(h: Hub, order: seq<EventType>, fails: set<EventType>)
    ensures var k := FlushTypes(h, order, fails);
      && (forall t :: t in k.deltaBuf <==> t in h.deltaBuf && t !in order)
      && (forall t :: t in k.deltaBuf ==> k.deltaBuf[t] == h.deltaBuf[t])
  {
    if order != [] {
      FlushesShrink(h, order[..|order| - 1], fails);
      assert order == order[..|order| - 1] + [order[|order| - 1]];
    }
  }

  /** What a delta does to its bucket: the bucket grows by the size of the text, and is gone when that
      makes 4096 bytes; other buckets stay. */
  lemma DeltaGrows(h: Hub, run: string, typ: EventType, payload: Payload, size: nat, fails: set<EventType>)
    requires !h.closed && h.journaled && !IsKeyEvent(typ)
    ensures var k := Publish(h, run, typ, payload, size, fails).0;
      var before := if typ in h.deltaBuf then h.deltaBuf[typ].bytes else 0;
      && (typ in k.deltaBuf <==> before + size < 4096)
      && (typ in k.deltaBuf ==> k.deltaBuf[typ].bytes == before + size && (k.timerArmed <==> h.timerArmed || typ !in h.deltaBuf))
      && (forall t :: t != typ ==> (t in k.deltaBuf <==> t in h.deltaBuf) && (t in h.deltaBuf ==> k.deltaBuf[t] == h.deltaBuf[t]))
  {
    hide OfferAll, StillRegistered;
  }

  lemma OtherBuckets(h: Hub, step: Step)
    requires Enabled(h, step) && !step.DoPublish?
    ensures forall t :: t in Apply(h, step).deltaBuf ==> t in h.deltaBuf && Apply(h, step).deltaBuf[t] == h.deltaBuf[t]
    ensures !h.closed && (step.DoBeginRun? || step.DoEndRun? || step.DoTimer? || step.DoClose?) ==> Apply(h, step).deltaBuf == map[]
  {
    match step
    case DoBeginRun(_, order, fails) => FlushesShrink(h, order, fails);
    case DoEndRun(order, fails) => FlushesShrink(h, order, fails);
    case DoTimer(order, fails) => FlushesShrink(h, order, fails);
    case DoClose(order, fails) => FlushesShrink(h.(closed := true), order, fails);
    case DoSubscribe(_, order, fails, _) => FlushesShrink(h, order, fails);
    case _ =>
  }

  lemma KeyBuckets(h: Hub, run: string, typ: EventType, payload: Payload, size: nat, fails: set<EventType>)
    requires h.closed || !h.journaled || IsKeyEvent(typ)
    ensures Publish(h, run, typ, payload, size, fails).0.deltaBuf == h.deltaBuf
  {
    hide OfferAll, StillRegistered;
  }

  /** Nothing waits in a full bucket; and when the timer fires, or a run begins or ends, or the hub is
      closed, nothing waits at all. */
  lemma {:induction false} NothingWaitsLong(h: Hub, steps: seq<Step>)
    requires Small(h)
    ensures Small(Run(h, steps))
    ensures steps != [] && Took(h, steps, |steps| - 1) && !Run(h, steps[..|steps| - 1]).closed ==>
      var last := steps[|steps| - 1];
      (last.DoBeginRun? || last.DoEndRun? || last.DoTimer? || last.DoClose?) ==> Run(h, steps).deltaBuf == map[]
  {
    if steps != [] {
      var init, last := steps[..|steps| - 1], steps[|steps| - 1];
      NothingWaitsLong(h, init);
      var k := Run(h, init);
      HistorySnoc(h, steps, k);
      if last.DoPublish? {
        if k.closed || !k.journaled || IsKeyEvent(last.typ) {
          KeyBuckets(k, last.run, last.typ, last.payload, last.size, last.fails);
        } else {
          DeltaGrows(k, last.run, last.typ, last.payload, last.size, last.fails);
        }
      } else if Enabled(k, last) {
        OtherBuckets(k, last);
      }
    }
  }

  // ---------------------------------------------------------------- dropped subscribers

  /** A subscription that is no longer registered was told so, or left by itself. */
  ghost predicate Told(h: Hub) {
    forall id :: id in h.streams && id !in h.subs ==> h.streams[id].disconnected || h.streams[id].exited
  }

  lemma OffersTell(h: Hub, ev: SessionEvent)
    requires Told(h)
    ensures Told(FanOut(h, ev))
  {}

  lemma PublishTells(h: Hub, run: string, typ: EventType, payload: Payload, size: nat, fails: set<EventType>)
    requires Told(h)
    ensures Told(Publish(h, run, typ, payload, size, fails).0)
  {
    if !h.closed {
      var ev := SessionEvent(Resolve(h, run), h.nextSeq, typ, payload);
      var b := h.(nextSeq := h.nextSeq + 1, latest := ev.seqNo);
      OffersTell(b, ev);
      OffersTell(b.(log := h.log + [EventRecord(ev.run, typ, ev.seqNo, 0, payload)]), ev);
      hide FanOut, BufferDelta;
      BuffersQuietly(Broadcast(h, ev), ev, size, fails);
    }
  }

  lemma StepTells(h: Hub, step: Step)
    requires Enabled(h, step) && Told(h)
    ensures Told(Apply(h, step))
  {
    match step
    case DoPublish(run, typ, payload, size, fails) => PublishTells(h, run, typ, payload, size, fails);
    case DoBeginRun(_, order, fails) => FlushesQuietly(h, order, fails);
    case DoEndRun(order, fails) => FlushesQuietly(h, order, fails);
    case DoTimer(order, fails) => FlushesQuietly(h, order, fails);
    case DoClose(order, fails) => FlushesQuietly(h.(closed := true), order, fails);
    case DoSubscribe(_, order, fails, _) => FlushesQuietly(h, order, fails);
    case _ =>
  }

  /** Nobody is dropped in silence: whoever the hub no longer serves was disconnected, or its pump ended. */
  lemma {:induction false} DroppedAreTold(h: Hub, steps: seq<Step>)
    requires Told(h)
    ensures Told(Run(h, steps))
  {
    if steps != [] {
      DroppedAreTold(h, steps[..|steps| - 1]);
      var k := Run(h, steps[..|steps| - 1]);
      if Enabled(k, steps[|steps| - 1]) { StepTells(k, steps[|steps| - 1]); }
    }
  }

  // ---------------------------------------------------------------- integrity

  lemma {:induction false} FlushesLower(h: Hub, order: seq<EventType>, fails: set<EventType>)
    ensures FlushTypes(h, order, fails).integrity == h.integrity || FlushTypes(h, order, fails).integrity == Incomplete
  {
    if order != [] { FlushesLower(h, order[..|order| - 1], fails); }
  }

  lemma StepLowers(h: Hub, step: Step)
    requires Enabled(h, step)
    ensures Apply(h, step).integrity == h.integrity || Apply(h, step).integrity == Incomplete
  {
    match step
    case DoBeginRun(_, order, fails) => FlushesLower(h, order, fails);
    case DoEndRun(order, fails) => FlushesLower(h, order, fails);
    case DoTimer(order, fails) => FlushesLower(h, order, fails);
    case DoClose(order, fails) => FlushesLower(h.(closed := true), order, fails);
    case DoSubscribe(_, order, fails, _) => FlushesLower(h, order, fails);
    case _ => hide OfferAll, StillRegistered;
  }

  /** What is said about the replay never gets better: incomplete stays incomplete, and a hub that was
      opened on a history never says complete. */
  lemma {:induction false} IntegrityOnlyFalls(log: Option<seq<EventRecord>>, steps: seq<Step>, n: nat)
    requires n <= |steps|
    ensures var h := NewHub(log);
      && (Run(h, steps[..n]).integrity == Incomplete ==> Run(h, steps).integrity == Incomplete)
      && (log.Some? && log.value != [] ==> Run(h, steps).integrity != Complete)
  {
    var h := NewHub(log);
    if steps != [] {
      var init, last := steps[..|steps| - 1], steps[|steps| - 1];
      IntegrityOnlyFalls(log, init, if n <= |init| then n else |init|);
      if n <= |init| { assert init[..n] == steps[..n]; } else { assert steps[..n] == steps; }
      if Enabled(Run(h, init), last) { StepLowers(Run(h, init), last); }
    } else {
      assert steps[..n] == [];
    }
  }

  // ---------------------------------------------------------------- slow subscribers

  /** Publishing offers the event to every registered subscriber whose watermark is below it: one with 256
      events waiting is dropped and told so, any other gets it behind what waits; nobody else notices. */
  lemma DroppedWhenFull(h: Hub, run: string, typ: EventType, payload: Payload, size: nat, fails: set<EventType>, id: nat)
    requires id in h.subs && id in h.streams && Publish(h, run, typ, payload, size, fails).1.Published?
    ensures var k := Publish(h, run, typ, payload, size, fails).0;
      var ev := SessionEvent(if run == "" then h.curRun else run, h.nextSeq, typ, payload);
      && id in k.streams
      && if h.nextSeq <= h.streams[id].watermark then id in k.subs && k.streams[id] == h.streams[id]
         else if |h.streams[id].live| >= 256 then id !in k.subs && k.streams[id] == h.streams[id].(disconnected := true)
         else id in k.subs && k.streams[id] == h.streams[id].(live := h.streams[id].live + [ev])
  {
    hide BufferDelta;
    var ev := SessionEvent(Resolve(h, run), h.nextSeq, typ, payload);
    BuffersQuietly(Broadcast(h, ev), ev, size, fails);
  }
}

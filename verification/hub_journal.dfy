/** The hub at work under the supervisor. The journal's machine says who calls the hub when, and what
    becomes of each append; the hub's machine says what the call does. Composed, every delta joins a
    bucket of its own run and an append fails only where a write failed, so the hub's promises hold
    without a proviso. */
module HubJournal {
  import opened Events
  import opened HubModel
  import opened HubDelivery
  import J = JournalModel
  import R = RunJournal
  import T = HubTheorems
  import P = HubRecord

  /** last: the bucket or, for None, the key event a handle was looked up for. In the call that holds the
      lock, failed: what could not be appended; broken: where the write itself failed. */
  datatype System = System(j: J.Journal, h: Hub, last: Option<EventType>,
                           failed: set<Option<EventType>>, broken: set<Option<EventType>>)

  /** A step inside a call or beside the hub; one that ends a call; one of a subscriber. */
  datatype Move = Inner(e: J.Event) | Call(e: J.Event, step: Step) | Outer(step: Step)

  // ---------------------------------------------------------------- the machine

  predicate Spills(h: Hub, typ: EventType, size: nat) {
    (if typ in h.deltaBuf then h.deltaBuf[typ].bytes else 0) + size >= DELTA_FLUSH_BYTES
  }

  /** The buckets whose append failed. */
  ghost predicate FailsAre(fails: set<EventType>, failed: set<Option<EventType>>) {
    forall t :: t in fails <==> Some(t) in failed
  }

  /** The call of the hub that e ends. */
  ghost predicate Fits(s: System, e: J.Event, step: Step)
    requires J.Enabled(s.j, e)
  {
    match e
    case Put(r, typ) =>
      step.DoPublish? && step.run == r && step.typ == typ && step.fails == {} && !Spills(s.h, typ, step.size)
    case Unlock =>
      (match s.j.mu.value.job
       case BeginJob(r) => step.DoBeginRun? && step.run == r && FailsAre(step.fails, s.failed)
       case EndJob(_) => step.DoEndRun? && FailsAre(step.fails, s.failed)
       case KeyJob(r, _, _) =>
         step.DoPublish? && step.run == r && IsKeyEvent(step.typ) && step.fails == if None in s.failed then {step.typ} else {}
       case SpillJob(r, typ) =>
         step.DoPublish? && step.run == r && step.typ == typ && FailsAre(step.fails, s.failed) && Spills(s.h, typ, step.size)
       case FlushJob =>
         || (step.DoTimer? && FailsAre(step.fails, s.failed))
         || (step.DoSubscribe? && FailsAre(step.fails, s.failed) && !s.h.closed && !Rejects(s.h, step.cursor))
       case CloseJob => step.DoClose? && FailsAre(step.fails, s.failed))
    case _ => false
  }

  /** Steps of pumps and consumers, and subscriptions that are turned away. */
  predicate Aside(s: System, step: Step) {
    || step.PumpReplay? || step.PumpTake? || step.PumpSend? || step.PumpExit? || step.Cancel? || step.Consume?
    || (step.DoSubscribe? && s.j.mu.None? && (s.h.closed || Rejects(s.h, step.cursor)))
  }

  ghost predicate CanMove(s: System, m: Move) {
    match m
    case Inner(e) => J.Enabled(s.j, e) && !e.Put? && !e.Unlock?
    case Call(e, step) => J.Enabled(s.j, e) && (e.Put? || e.Unlock?) && Enabled(s.h, step) && Fits(s, e, step)
    case Outer(step) => Enabled(s.h, step) && Aside(s, step)
  }

  /** What a step inside a call leaves on record about its appends. */
  function Noted(s: System, e: J.Event): System
    requires J.Enabled(s.j, e)
  {
    match e
    case Lock(_) => s.(failed := {}, broken := {})
    case Spill(_, _) => s.(failed := {}, broken := {})
    case Take(typ) =>
      if J.Found(s.j, s.j.buf[typ]) then s.(last := Some(typ)) else s.(last := Some(typ), failed := s.failed + {Some(typ)})
    case KeyLook =>
      if J.Found(s.j, s.j.mu.value.job.run) then s.(last := None) else s.(last := None, failed := s.failed + {None})
    case EventWrite(ok) =>
      var r := s.j.mu.value.target.value;
      s.(failed := if ok && r in s.j.open && r in s.j.files then s.failed else s.failed + {s.last},
         broken := if ok then s.broken else s.broken + {s.last})
    case _ => s
  }

  ghost function Moved(s: System, m: Move): System
    requires CanMove(s, m)
  {
    match m
    case Inner(e) => Noted(s, e).(j := J.Happen(s.j, e))
    case Call(e, step) => s.(j := J.Happen(s.j, e), h := Apply(s.h, step), failed := {}, broken := {})
    case Outer(step) => s.(h := Apply(s.h, step))
  }

  ghost predicate MoveAt(states: seq<System>, moves: seq<Move>, n: nat) {
    n < |moves| && n + 1 < |states| && CanMove(states[n], moves[n]) && states[n + 1] == Moved(states[n], moves[n])
  }

  ghost predicate IsRun(states: seq<System>, moves: seq<Move>, log: seq<EventRecord>) {
    && |states| == |moves| + 1
    && states[0] == System(J.Start(states[0].j.files), NewHub(Some(log)), None, {}, {})
    && (forall r :: r in states[0].j.files ==> J.EndsOnce(states[0].j.files[r]))
    && (forall n :: 0 <= n < |moves| ==> MoveAt(states, moves, n))
  }

  // ---------------------------------------------------------------- the two machines agree

  predicate InJob(mu: Option<J.HubOp>, typ: EventType) {
    mu.Some? && J.Flushes(mu.value.job, typ)
  }

  /** The owner of each bucket; between the steps of a flush the hub still has what is being written. */
  predicate BucketsAgree(owners: map<EventType, string>, mu: Option<J.HubOp>, buf: map<EventType, PendingDelta>) {
    && (forall t :: t in owners ==> if t in buf then buf[t].run == owners[t] else mu.Some? && mu.value.job == J.SpillJob(owners[t], t))
    && (forall t :: t in buf ==> t in owners || InJob(mu, t))
    && (mu.Some? && mu.value.job.SpillJob? ==>
          !IsKeyEvent(mu.value.job.typ) && (mu.value.job.typ in buf ==> buf[mu.value.job.typ].run == mu.value.job.run))
  }

  predicate ClosedAgree(ended: bool, mu: Option<J.HubOp>, h: Hub) {
    && (h.closed ==> ended && h.deltaBuf == map[])
    && (ended ==> h.closed || (mu.Some? && mu.value.job.CloseJob?))
    && (mu.Some? && mu.value.job.CloseJob? ==> ended)
  }

  ghost predicate Agree(s: System) {
    && R.Inv(s.j) && (forall r :: r in s.j.runs ==> r != "")
    && s.h.journaled && s.h.curRun == s.j.cur && ClosedAgree(s.j.closed, s.j.mu, s.h)
    && BucketsAgree(s.j.buf, s.j.mu, s.h.deltaBuf) && s.failed == s.broken
  }

  /** Every append that fails failed for its write. */
  lemma NotedAgrees(s: System, e: J.Event)
    requires R.Inv(s.j) && J.Enabled(s.j, e) && s.failed == s.broken
    ensures Noted(s, e).failed == Noted(s, e).broken && Noted(s, e).h == s.h
  {
    match e
    case Take(typ) => R.EmitterReady(s.j, s.j.buf[typ]);
    case KeyLook => R.EmitterReady(s.j, s.j.mu.value.job.run);
    case EventWrite(_) => R.EmitterReady(s.j, s.j.mu.value.target.value);
    case _ =>
  }

  /** Steps that leave buckets and lock alone. */
  lemma QuietAgrees(j: J.Journal, e: J.Event)
    requires J.Enabled(j, e)
    requires !e.Put? && !e.Unlock? && !e.Take? && !e.Lock? && !e.Spill? && !e.KeyLook? && !e.EventWrite?
    ensures var k := J.Happen(j, e); k.buf == j.buf && k.mu == j.mu && k.cur == j.cur && k.closed == j.closed
  {}

  lemma LockAgrees(j: J.Journal, e: J.Event, h: Hub)
    requires R.Inv(j) && J.Enabled(j, e) && (e.Lock? || e.Spill?)
    requires BucketsAgree(j.buf, j.mu, h.deltaBuf) && ClosedAgree(j.closed, j.mu, h)
    ensures var k := J.Happen(j, e);
      k.cur == j.cur && BucketsAgree(k.buf, k.mu, h.deltaBuf) && ClosedAgree(k.closed, k.mu, h)
  {
    assert R.BufOk(j) && R.ActiveOk(j);
  }

  lemma WriteEffect(j: J.Journal, e: J.Event)
    requires R.Inv(j) && J.Enabled(j, e) && (e.Take? || e.KeyLook? || e.EventWrite?)
    ensures var k := J.Happen(j, e);
      && k.cur == j.cur && k.closed == j.closed && k.buf == (if e.Take? then j.buf - {e.typ} else j.buf) && k.mu.Some?
      && k.mu.value.job == if e.KeyLook? then j.mu.value.job.(done := true) else j.mu.value.job
  {
    match e
    case Take(typ) => R.EmitterReady(j, j.buf[typ]);
    case KeyLook => R.EmitterReady(j, j.mu.value.job.run);
    case _ =>
  }

  /** A bucket that the holder of the lock takes out. */
  lemma BucketTaken(owners: map<EventType, string>, job: J.Job, from: Option<string>, to: Option<string>, buf: map<EventType, PendingDelta>, typ: EventType)
    requires BucketsAgree(owners, Some(J.HubOp(job, from)), buf) && J.Flushes(job, typ)
    ensures BucketsAgree(owners - {typ}, Some(J.HubOp(job, to)), buf)
  {}

  /** The lock changes hands or targets, among calls that flush nothing by themselves. */
  lemma TargetMoves(owners: map<EventType, string>, mu: J.HubOp, next: J.HubOp, buf: map<EventType, PendingDelta>)
    requires BucketsAgree(owners, Some(mu), buf) && (next.job == mu.job || (mu.job.KeyJob? && next.job.KeyJob?))
    ensures BucketsAgree(owners, Some(next), buf)
  {}

  lemma WriteAgrees(j: J.Journal, e: J.Event, h: Hub)
    requires R.Inv(j) && J.Enabled(j, e) && (e.Take? || e.KeyLook? || e.EventWrite?)
    requires BucketsAgree(j.buf, j.mu, h.deltaBuf) && ClosedAgree(j.closed, j.mu, h)
    ensures var k := J.Happen(j, e);
      k.cur == j.cur && BucketsAgree(k.buf, k.mu, h.deltaBuf) && ClosedAgree(k.closed, k.mu, h)
  {
    WriteEffect(j, e);
    var k := J.Happen(j, e);
    if e.Take? {
      BucketTaken(j.buf, j.mu.value.job, j.mu.value.target, k.mu.value.target, h.deltaBuf, e.typ);
    } else {
      TargetMoves(j.buf, j.mu.value, k.mu.value, h.deltaBuf);
    }
  }

  lemma StillNamed(j: J.Journal, e: J.Event)
    requires J.Enabled(j, e) && forall r :: r in j.runs ==> r != ""
    ensures forall r :: r in J.Happen(j, e).runs ==> r != ""
  {}

  lemma InnerAgrees(s: System, e: J.Event)
    requires Agree(s) && CanMove(s, Inner(e))
    ensures Agree(Moved(s, Inner(e)))
  {
    R.HappenInv(s.j, e);
    StillNamed(s.j, e);
    NotedAgrees(s, e);
    if e.Take? || e.KeyLook? || e.EventWrite? {
      WriteAgrees(s.j, e, s.h);
    } else if e.Lock? || e.Spill? {
      LockAgrees(s.j, e, s.h);
    } else {
      QuietAgrees(s.j, e);
    }
  }

  // ---------------------------------------------------------------- ends of calls

  /** The buckets after a flush of all. */
  lemma {:induction false} FlushesAll(h: Hub, order: seq<EventType>, fails: set<EventType>)
    ensures var k := FlushTypes(h, order, fails);
      && k.closed == h.closed && k.curRun == h.curRun && k.journaled == h.journaled
      && k.deltaBuf.Keys == h.deltaBuf.Keys - set t | t in order
  {
    if order != [] {
      FlushesAll(h, order[..|order| - 1], fails);
      assert order == order[..|order| - 1] + [order[|order| - 1]];
    }
  }

  lemma FlushedEmpty(h: Hub, order: seq<EventType>, fails: set<EventType>)
    requires Walks(h, order)
    ensures var k := FlushAll(h, order, fails);
      k.closed == h.closed && k.curRun == h.curRun && k.journaled == h.journaled && k.deltaBuf == map[]
  {
    FlushesAll(h, order, fails);
    assert FlushTypes(h, order, fails).deltaBuf.Keys == {};
  }

  /** A delta that fits its bucket joins it. */
  lemma PutAgrees(s: System, e: J.Event, step: Step)
    requires Agree(s) && e.Put? && CanMove(s, Call(e, step))
    ensures Owned(s.h, step) && Agree(Moved(s, Call(e, step)))
  {
    R.HappenInv(s.j, e);
    assert R.BufOk(s.j) && R.ActiveOk(s.j);
    StillNamed(s.j, e);
    var ev := SessionEvent(Resolve(s.h, step.run), s.h.nextSeq, step.typ, step.payload);
    assert Apply(s.h, step) == PutDelta(Broadcast(s.h, ev), ev, step.size);
  }

  lemma SpillEffect(h: Hub, run: string, typ: EventType, payload: Payload, size: nat, fails: set<EventType>)
    requires h.journaled && !h.closed && !IsKeyEvent(typ) && Spills(h, typ, size)
    ensures var k := Publish(h, run, typ, payload, size, fails).0;
      k.deltaBuf == h.deltaBuf - {typ} && !k.closed && k.curRun == h.curRun && k.journaled
  {
    var ev := SessionEvent(Resolve(h, run), h.nextSeq, typ, payload);
    assert Publish(h, run, typ, payload, size, fails).0 == BufferDelta(Broadcast(h, ev), ev, size, fails);
    assert h.deltaBuf[typ := Bucketed(h, ev, size)] - {typ} == h.deltaBuf - {typ};
  }

  lemma UnlockEffect(j: J.Journal)
    requires J.Enabled(j, J.Unlock)
    ensures var k, job := J.Happen(j, J.Unlock), j.mu.value.job;
      && k.buf == j.buf && k.mu.None? && k.closed == j.closed
      && k.cur == if j.closed then j.cur else if job.BeginJob? then job.run else if job.EndJob? then "" else j.cur
  {}

  lemma BucketSpilled(owners: map<EventType, string>, run: string, typ: EventType, to: Option<string>, buf: map<EventType, PendingDelta>)
    requires BucketsAgree(owners, Some(J.HubOp(J.SpillJob(run, typ), to)), buf) && typ !in owners
    ensures BucketsAgree(owners, None, buf - {typ}) && !IsKeyEvent(typ) && (typ in buf ==> buf[typ].run == run)
  {}

  /** A delta that fills its bucket takes it along. */
  lemma SpillAgrees(s: System, step: Step)
    requires Agree(s) && CanMove(s, Call(J.Unlock, step)) && s.j.mu.value.job.SpillJob?
    ensures Owned(s.h, step) && Agree(Moved(s, Call(J.Unlock, step)))
  {
    R.HappenInv(s.j, J.Unlock);
    StillNamed(s.j, J.Unlock);
    UnlockEffect(s.j);
    assert step.run != "" by { assert R.JobOk(s.j, s.j.mu.value.job); }
    BucketSpilled(s.j.buf, step.run, step.typ, s.j.mu.value.target, s.h.deltaBuf);
    hide R.Inv, J.Happen, BucketsAgree, Publish;
    if s.h.closed {
      assert Publish(s.h, step.run, step.typ, step.payload, step.size, step.fails).0 == s.h by { PublishClosedHub(s.h, step); }
      assert s.h.deltaBuf - {step.typ} == s.h.deltaBuf;
    } else {
      SpillEffect(s.h, step.run, step.typ, step.payload, step.size, step.fails);
    }
  }

  lemma PublishClosedHub(h: Hub, step: Step)
    requires h.closed && step.DoPublish?
    ensures Publish(h, step.run, step.typ, step.payload, step.size, step.fails).0 == h
  {}

  lemma KeyAgrees(s: System, step: Step)
    requires Agree(s) && CanMove(s, Call(J.Unlock, step)) && s.j.mu.value.job.KeyJob?
    ensures Owned(s.h, step) && Agree(Moved(s, Call(J.Unlock, step)))
  {
    R.HappenInv(s.j, J.Unlock);
    StillNamed(s.j, J.Unlock);
    UnlockEffect(s.j);
    hide R.Inv, J.Happen, J.Enabled, FanOut;
    assert Apply(s.h, step).deltaBuf == s.h.deltaBuf;
  }

  /** Calls that flush every bucket. */
  lemma FlushAgrees(s: System, step: Step)
    requires Agree(s) && CanMove(s, Call(J.Unlock, step)) && !s.j.mu.value.job.KeyJob? && !s.j.mu.value.job.SpillJob?
    ensures Owned(s.h, step) && Agree(Moved(s, Call(J.Unlock, step)))
  {
    R.HappenInv(s.j, J.Unlock);
    StillNamed(s.j, J.Unlock);
    assert s.j.buf == map[];
    match step
    case DoBeginRun(_, order, fails) => FlushedEmpty(s.h, order, fails);
    case DoEndRun(order, fails) => FlushedEmpty(s.h, order, fails);
    case DoTimer(order, fails) => FlushedEmpty(s.h, order, fails);
    case DoClose(order, fails) => FlushedEmpty(s.h.(closed := true), order, fails);
    case DoSubscribe(_, order, fails, _) => FlushedEmpty(s.h, order, fails);
  }

  lemma OuterAgrees(s: System, step: Step)
    requires Agree(s) && CanMove(s, Outer(step))
    ensures Owned(s.h, step) && Agree(Moved(s, Outer(step)))
  {}

  lemma MoveAgrees(s: System, m: Move)
    requires Agree(s) && CanMove(s, m)
    ensures Agree(Moved(s, m))
    ensures !m.Inner? ==> Owned(s.h, m.step)
  {
    match m
    case Inner(e) => InnerAgrees(s, e);
    case Outer(step) => OuterAgrees(s, step);
    case Call(e, step) =>
      if e.Put? { PutAgrees(s, e, step); }
      else if s.j.mu.value.job.SpillJob? { SpillAgrees(s, step); }
      else if s.j.mu.value.job.KeyJob? { KeyAgrees(s, step); }
      else { FlushAgrees(s, step); }
  }

  lemma {:induction false} RunAgrees(states: seq<System>, moves: seq<Move>, log: seq<EventRecord>, n: nat)
    requires IsRun(states, moves, log) && n < |states|
    ensures Agree(states[n])
  {
    if n == 0 {
      R.StartInv(states[0].j.files);
    } else {
      RunAgrees(states, moves, log, n - 1);
      assert MoveAt(states, moves, n - 1);
      MoveAgrees(states[n - 1], moves[n - 1]);
    }
  }

  // ---------------------------------------------------------------- what follows

  /** The hub's part of the first n moves. */
  function HubSteps(moves: seq<Move>): seq<Step> {
    if moves == [] then []
    else
      var m := moves[|moves| - 1];
      if m.Inner? then HubSteps(moves[..|moves| - 1]) else HubSteps(moves[..|moves| - 1]) + [m.step]
  }

  /** The hub's part of a run of the system is a run of the hub in which no bucket is foreign. */
  lemma {:induction false} HubRuns(states: seq<System>, moves: seq<Move>, log: seq<EventRecord>, n: nat)
    requires IsRun(states, moves, log) && n < |states|
    ensures states[n].h == Run(NewHub(Some(log)), HubSteps(moves[..n]))
    ensures OwnedRun(NewHub(Some(log)), HubSteps(moves[..n]))
  {
    hide Agree, Apply, Owned, J.Happen, J.Enabled, Enabled, Fits, Aside;
    if n > 0 {
      HubRuns(states, moves, log, n - 1);
      RunAgrees(states, moves, log, n - 1);
      assert MoveAt(states, moves, n - 1);
      MoveAgrees(states[n - 1], moves[n - 1]);
      assert moves[..n][..n - 1] == moves[..n - 1];
      var before := HubSteps(moves[..n - 1]);
      if !moves[n - 1].Inner? { assert (before + [moves[n - 1].step])[..|before|] == before; }
    } else {
      assert moves[..0] == [];
    }
  }

  /** Under the supervisor, with no proviso: whatever the interleaving of runs, timer, subscribers and
      Close, a consumer has received in strictly increasing order a prefix of what it is entitled to,
      each event with its own run; and all above its cursor while the hub does not report Incomplete. */
  lemma {:induction false} SystemDelivery(states: seq<System>, moves: seq<Move>, log: seq<EventRecord>, n: nat, id: nat)
    requires IsRun(states, moves, log) && n < |states| && ReadableHistory(log) && id in states[n].h.streams
    ensures var h := states[n].h; var s := h.streams[id];
      && s.received <= Target(s, h.hist) && Increasing(s.received)
      && (forall e :: e in Target(s, h.hist) <==>
            e in h.hist && e.seqNo > s.cursor && (e in h.lost ==> e.seqNo > s.watermark))
      && (h.integrity != Incomplete ==> s.received <= After(h.hist, s.cursor))
  {
    HubRuns(states, moves, log, n);
    RunAgrees(states, moves, log, n);
    T.Delivery(Some(log), HubSteps(moves[..n]), id);
  }

  /** And what is given up for lost was lost to a failed write: an append meets neither a missing nor an
      evicted handle. */
  lemma LostToWritesOnly(states: seq<System>, moves: seq<Move>, log: seq<EventRecord>, n: nat)
    requires IsRun(states, moves, log) && n < |moves| && moves[n].Call?
    ensures forall t :: t in T.Fails(moves[n].step) ==> Some(t) in states[n].broken || (None in states[n].broken && IsKeyEvent(t))
  {
    RunAgrees(states, moves, log, n);
    assert MoveAt(states, moves, n);
  }

  /** And what it has received, once nothing is in transit and nothing is reported lost, is exactly what was
      retained and what the runs published, above its cursor. */
  lemma SystemReceives(states: seq<System>, moves: seq<Move>, log: seq<EventRecord>, n: nat, id: nat)
    requires IsRun(states, moves, log) && n < |states| && ReadableHistory(log)
    requires var h := states[n].h;
      && h.integrity != Incomplete && id in h.subs && id in h.streams && h.streams[id].sent == |h.streams[id].replay|
      && h.streams[id].held.None? && h.streams[id].live == [] && h.streams[id].ch == []
    ensures n <= |moves|
    ensures var h := NewHub(Some(log));
      states[n].h.streams[id].received
      == After(h.hist + P.AcceptedEvents(h, HubSteps(moves[..n]), h.nextSeq), states[n].h.streams[id].cursor)
  {
    HubRuns(states, moves, log, n);
    P.PublishedIsReceived(log, HubSteps(moves[..n]), id);
  }
}

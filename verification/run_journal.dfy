/** Hub, journal handles and supervisor together: in every run file the events precede the single
    terminal record and nothing follows it, and no append meets an evicted handle. */
module RunJournal {
  import opened Events
  import opened JournalModel

  // ---------------------------------------------------------------- what a thread implies

  /** The run is its session's active run. */
  predicate Occupies(s: Stage) {
    !s.Parting? && !s.Gone? && !s.Dropped? && !s.Uncreated?
  }

  /** The stages in which events of the run may be appended. */
  predicate Emits(s: Stage) {
    s.Starting? || s.Recording? || s.Working? || s.Closing? || s.Ending? || s.Stopping?
  }

  /** The stages in which deltas of the run may be buffered. */
  predicate Buffers(s: Stage) {
    s.Working? || s.Closing? || s.Ending?
  }

  predicate Cached(t: Thread) {
    match t.stage
    case Accepting => t.op.Looked?
    case Finishing => !t.op.Evicted?
    case Cleared => false
    case Parting => false
    case Gone => false
    case Uncreated => false
    case _ => true
  }

  predicate Opened(t: Thread) {
    if t.stage.Finishing? then true else Cached(t)
  }

  /** The terminal record was written, or tried. */
  predicate Closed(t: Thread) {
    t.stage.Cleared? || t.stage.Parting? || t.stage.Gone? || (t.stage.Finishing? && (t.op.Written? || t.op.Evicted?))
  }

  // ---------------------------------------------------------------- the invariant

  predicate OpOk(t: Thread) {
    match t.op
    case NoOp => true
    case Looked(st) => MayWrite(t.stage, st)
    case _ => t.stage.Finishing?
  }

  predicate HandleOk(r: string, t: Thread, j: Journal) {
    && (!t.stage.Dropped? ==> (r in j.handles <==> Cached(t)) && (r in j.open <==> Opened(t)))
    && (r in j.files <==> !t.stage.Uncreated? && !(t.stage.Accepting? && t.op.NoOp?))
    && (r in j.files && Ended(j.files[r]) ==> Closed(t))
  }

  predicate RunsOk(j: Journal) {
    && (forall r :: r in j.runs ==> OpOk(j.runs[r]) && HandleOk(r, j.runs[r], j))
    && (forall r :: r in j.handles + j.open ==> r in j.runs)
  }

  predicate FilesOk(j: Journal) {
    forall r :: r in j.files ==> EndsOnce(j.files[r])
  }

  predicate ActiveOk(j: Journal) {
    && (forall r :: r in j.runs && Occupies(j.runs[r].stage) ==> j.active == Some(r))
    && (j.active.Some? ==> j.active.value in j.runs && Occupies(j.runs[j.active.value].stage))
  }

  predicate BufOk(j: Journal) {
    && (forall typ :: typ in j.buf ==> j.buf[typ] in j.runs && Buffers(j.runs[j.buf[typ]].stage))
    && (j.closed ==> j.buf == map[] || (j.mu.Some? && j.mu.value.job.CloseJob?))
  }

  predicate JobOk(j: Journal, job: Job) {
    match job
    case FlushJob => true
    case CloseJob => true
    case BeginJob(r) => r in j.runs && j.runs[r] == Thread(Beginning, NoOp)
    case EndJob(r) => r in j.runs && (j.runs[r] == Thread(Ending, NoOp) || j.runs[r] == Thread(Parting, NoOp))
    case KeyJob(r, last, _) =>
      && r in j.runs && (j.runs[r].stage.Working? || j.runs[r].op.NoOp?)
      && (j.runs[r].stage.Closing? || (last && j.runs[r].stage.Stopping?)
          || (!last && (j.runs[r].stage.Starting? || j.runs[r].stage.Working?)))
    case SpillJob(r, _) => r in j.runs && j.runs[r].stage.Working?
  }

  predicate MuOk(j: Journal) {
    j.mu.Some? ==>
      && JobOk(j, j.mu.value.job)
      && (j.mu.value.target.Some? ==>
            j.mu.value.target.value in j.runs && Emits(j.runs[j.mu.value.target.value].stage))
  }

  predicate Inv(j: Journal) {
    RunsOk(j) && FilesOk(j) && ActiveOk(j) && BufOk(j) && MuOk(j)
  }

  // ---------------------------------------------------------------- one thread moves

  /** The move of r to t touches nothing anybody relies on. */
  predicate Movable(j: Journal, r: string, t: Thread) {
    && r in j.runs && (InHub(j, r) ==> j.runs[r].stage.Working? && t.stage.Working?)
    && (Buffers(j.runs[r].stage) ==> Buffers(t.stage)) && (Emits(j.runs[r].stage) ==> Emits(t.stage))
  }

  lemma MoveRuns(j: Journal, r: string, t: Thread, active: Option<string>)
    requires RunsOk(j) && r in j.runs && OpOk(t) && HandleOk(r, t, j)
    ensures RunsOk(SetThread(j, r, t).(active := active))
  {
    var k := SetThread(j, r, t).(active := active);
    forall q | q in k.runs ensures OpOk(k.runs[q]) && HandleOk(q, k.runs[q], k) {
      if q != r { assert HandleOk(q, j.runs[q], j); }
    }
  }

  lemma MoveLock(j: Journal, r: string, t: Thread, active: Option<string>)
    requires MuOk(j) && BufOk(j) && Movable(j, r, t)
    ensures MuOk(SetThread(j, r, t).(active := active)) && BufOk(SetThread(j, r, t).(active := active))
  {
    var k := SetThread(j, r, t).(active := active);
    if j.mu.Some? { assert JobOk(k, j.mu.value.job); }
  }

  /** Only the thread of r changes, and files, handles, buffer and lock stay. */
  lemma MoveInv(j: Journal, r: string, t: Thread, active: Option<string>)
    requires Inv(j) && Movable(j, r, t) && OpOk(t) && HandleOk(r, t, j)
    requires if Occupies(t.stage) then Occupies(j.runs[r].stage) && active == j.active
             else active == if j.active == Some(r) then None else j.active
    ensures Inv(SetThread(j, r, t).(active := active))
  {
    var k := SetThread(j, r, t).(active := active);
    MoveRuns(j, r, t, active);
    MoveLock(j, r, t, active);
    assert ActiveOk(k);
  }

  lemma AcceptInv(j: Journal, r: string)
    requires Inv(j) && Enabled(j, Accept(r))
    ensures Inv(Happen(j, Accept(r)))
  {
    var k := Happen(j, Accept(r));
    assert HandleOk(r, k.runs[r], k);
    if j.mu.Some? { assert JobOk(k, j.mu.value.job); }
  }

  // ---------------------------------------------------------------- hits

  /** An event append finds the cached, open handle of its run, and the file is not ended. */
  lemma EmitterReady(j: Journal, r: string)
    requires Inv(j) && r in j.runs && Emits(j.runs[r].stage)
    ensures r in j.handles && r in j.open && r in j.files && !Ended(j.files[r]) && Found(j, r) && Lookup(j, r) == j
  {
    assert HandleOk(r, j.runs[r], j);
  }

  lemma SnocEndsOnce(file: seq<Entry>, e: Entry)
    requires EndsOnce(file) && !Ended(file)
    ensures EndsOnce(file + [e]) && (Ended(file + [e]) <==> e == StateEntry(TerminalState))
  {}

  // ---------------------------------------------------------------- steps on files

  /** The file of one run grows by one entry. */
  lemma AppendInv(j: Journal, r: string, e: Entry, ok: bool)
    requires Inv(j) && r in j.runs && (r in j.files ==> !Ended(j.files[r])) && e != StateEntry(TerminalState)
    ensures Inv(Append(j, r, e, ok))
  {
    var k := Append(j, r, e, ok);
    if k != j {
      SnocEndsOnce(j.files[r], e);
      forall x | x in k.runs ensures OpOk(k.runs[x]) && HandleOk(x, k.runs[x], k) {
        assert HandleOk(x, j.runs[x], j);
      }
      if j.mu.Some? { assert JobOk(k, j.mu.value.job); }
    }
  }

  /** A change of the lock alone. */
  lemma LockInv(j: Journal, mu: Option<HubOp>)
    requires Inv(j) && MuOk(j.(mu := mu))
    requires j.closed ==> j.buf == map[] || (mu.Some? && mu.value.job.CloseJob?)
    ensures Inv(j.(mu := mu))
  {
    var k := j.(mu := mu);
    forall x | x in k.runs ensures OpOk(k.runs[x]) && HandleOk(x, k.runs[x], k) {
      assert HandleOk(x, j.runs[x], j);
    }
  }

  lemma BufInv(j: Journal, buf: map<EventType, string>)
    requires Inv(j) && BufOk(j.(buf := buf))
    ensures Inv(j.(buf := buf))
  {
    var k := j.(buf := buf);
    forall x | x in k.runs ensures OpOk(k.runs[x]) && HandleOk(x, k.runs[x], k) {
      assert HandleOk(x, j.runs[x], j);
    }
    if j.mu.Some? { assert JobOk(k, j.mu.value.job); }
  }

  /** Outside the body a thread is in one call at a time. */
  lemma OneCall(j: Journal, r: string)
    requires Inv(j) && r in j.runs && !j.runs[r].op.NoOp? && !j.runs[r].stage.Working?
    ensures !InHub(j, r)
  {}

  lemma StateLookInv(j: Journal, r: string, st: StateName)
    requires Inv(j) && Enabled(j, StateLook(r, st))
    ensures Inv(Happen(j, StateLook(r, st)))
  {
    var t := Thread(j.runs[r].stage, Looked(st));
    assert HandleOk(r, j.runs[r], j);
    if j.runs[r].stage.Accepting? {
      CreateInv(j, r);
    } else {
      assert Lookup(j, r) == j;
      MoveInv(j, r, t, j.active);
    }
  }

  /** The queued record creates the file of its run. */
  lemma CreateInv(j: Journal, r: string)
    requires Inv(j) && r in j.runs && j.runs[r] == Thread(Accepting, NoOp) && !InHub(j, r)
    ensures r !in j.files && r !in j.handles
    ensures Inv(SetThread(Lookup(j, r), r, Thread(Accepting, Looked(QueuedState))))
  {
    assert HandleOk(r, j.runs[r], j);
    var k := SetThread(Lookup(j, r), r, Thread(Accepting, Looked(QueuedState)));
    forall x | x in k.runs ensures OpOk(k.runs[x]) && HandleOk(x, k.runs[x], k) {
      assert HandleOk(x, j.runs[x], j);
    }
    if j.mu.Some? { assert JobOk(k, j.mu.value.job); }
  }

  lemma StateWriteInv(j: Journal, r: string, ok: bool)
    requires Inv(j) && Enabled(j, StateWrite(r, ok))
    ensures Inv(Happen(j, StateWrite(r, ok)))
  {
    var t := j.runs[r];
    assert OpOk(t) && HandleOk(r, t, j);
    if t.stage.Finishing? {
      OneCall(j, r);
      TerminalInv(j, r, ok);
    } else {
      if !t.stage.Working? { OneCall(j, r); }
      var e := StateEntry(t.op.state);
      AppendInv(j, r, e, ok);
      var k := Append(j, r, e, ok);
      var next := AfterState(t.stage, ok && r in j.open && r in j.files);
      assert HandleOk(r, t, k);
      MoveInv(k, r, next, if next.stage.Dropped? then None else k.active);
    }
  }

  lemma TerminalInv(j: Journal, r: string, ok: bool)
    requires Inv(j) && r in j.runs && j.runs[r] == Thread(Finishing, Looked(TerminalState)) && !InHub(j, r)
    ensures Inv(SetThread(Append(j, r, StateEntry(TerminalState), ok), r, Thread(Finishing, Written)))
  {
    assert HandleOk(r, j.runs[r], j);
    SnocEndsOnce(j.files[r], StateEntry(TerminalState));
    var k := SetThread(Append(j, r, StateEntry(TerminalState), ok), r, Thread(Finishing, Written));
    forall x | x in k.runs ensures OpOk(k.runs[x]) && HandleOk(x, k.runs[x], k) {
      assert HandleOk(x, j.runs[x], j);
    }
    if j.mu.Some? { assert JobOk(k, j.mu.value.job); }
  }

  lemma EvictInv(j: Journal, r: string)
    requires Inv(j) && Enabled(j, StateEvict(r))
    ensures Inv(Happen(j, StateEvict(r)))
  {
    OneCall(j, r);
    var k := Happen(j, StateEvict(r));
    forall x | x in k.runs ensures OpOk(k.runs[x]) && HandleOk(x, k.runs[x], k) {
      assert HandleOk(x, j.runs[x], j);
    }
    if j.mu.Some? { assert JobOk(k, j.mu.value.job); }
  }

  lemma CloseInv(j: Journal, r: string)
    requires Inv(j) && Enabled(j, StateClose(r))
    ensures Inv(Happen(j, StateClose(r)))
  {
    OneCall(j, r);
    var k := Happen(j, StateClose(r));
    forall x | x in k.runs ensures OpOk(k.runs[x]) && HandleOk(x, k.runs[x], k) {
      assert HandleOk(x, j.runs[x], j);
    }
    if j.mu.Some? { assert JobOk(k, j.mu.value.job); }
  }

  // ---------------------------------------------------------------- steps of the hub

  lemma HubStepInv(j: Journal, e: Event)
    requires Inv(j) && Enabled(j, e) && (e.Lock? || e.KeyLook? || e.EventWrite?)
    ensures Inv(Happen(j, e))
  {
    match e {
      case Lock(job) =>
        LockInv(j, Some(HubOp(job, None)));
        if job.CloseJob? { ClosedInv(j.(mu := Some(HubOp(job, None)))); }
      case KeyLook =>
        EmitterReady(j, j.mu.value.job.run);
        LockInv(j, Some(HubOp(j.mu.value.job.(done := true), Some(j.mu.value.job.run))));
      case EventWrite(ok) =>
        var x := j.mu.value.target.value;
        EmitterReady(j, x);
        AppendInv(j, x, EventEntry, ok);
        LockInv(Append(j, x, EventEntry, ok), Some(HubOp(j.mu.value.job, None)));
    }
  }

  lemma ClosedInv(j: Journal)
    requires Inv(j) && j.mu.Some? && j.mu.value.job.CloseJob?
    ensures Inv(j.(closed := true))
  {
    var k := j.(closed := true);
    forall x | x in k.runs ensures OpOk(k.runs[x]) && HandleOk(x, k.runs[x], k) {
      assert HandleOk(x, j.runs[x], j);
    }
  }

  lemma BufferInv(j: Journal, e: Event)
    requires Inv(j) && Enabled(j, e) && (e.Put? || e.Spill? || e.Take?)
    ensures Inv(Happen(j, e))
  {
    match e {
      case Put(r, typ) => if typ !in j.buf { BufInv(j, j.buf[typ := r]); }
      case Spill(r, typ) =>
        LockInv(j, Some(HubOp(SpillJob(r, typ), None)));
        var k := j.(mu := Some(HubOp(SpillJob(r, typ), None)));
        if typ !in j.buf { BufInv(k, j.buf[typ := r]); }
      case Take(typ) =>
        var r := j.buf[typ];
        var k := j.(buf := j.buf - {typ});
        BufInv(j, j.buf - {typ});
        EmitterReady(k, r);
        assert Lookup(k, r) == k;
        LockInv(k, Some(HubOp(j.mu.value.job, Some(r))));
    }
  }

  lemma UnlockInv(j: Journal)
    requires Inv(j) && Enabled(j, Unlock)
    ensures Inv(Happen(j, Unlock))
  {
    var job := j.mu.value.job;
    LockInv(j, None);
    var k := j.(mu := None);
    var cur := Happen(j, Unlock).cur;
    CurInv(k, cur);
    if !job.FlushJob? && !job.CloseJob? {
      var r := job.run;
      assert HandleOk(r, k.runs[r], k);
      ResumeInv(k.(cur := cur), job);
    }
  }

  lemma CurInv(j: Journal, cur: string)
    requires Inv(j)
    ensures Inv(j.(cur := cur))
  {
    var k := j.(cur := cur);
    forall x | x in k.runs ensures OpOk(k.runs[x]) && HandleOk(x, k.runs[x], k) {
      assert HandleOk(x, j.runs[x], j);
    }
    if j.mu.Some? { assert JobOk(k, j.mu.value.job); }
  }

  lemma ResumeInv(j: Journal, job: Job)
    requires Inv(j) && j.mu.None? && !job.FlushJob? && !job.CloseJob? && JobOk(j, job)
    requires job.EndJob? ==> j.buf == map[]
    ensures Inv(SetThread(j, job.run, Resumed(j.runs[job.run], job)))
  {
    var r := job.run;
    var t := Resumed(j.runs[r], job);
    assert HandleOk(r, j.runs[r], j) && OpOk(j.runs[r]);
    if job.EndJob? { EndedInv(j, r, t); } else if t.stage.Finishing? { StoppedInv(j, r, t); } else { MoveInv(j, r, t, j.active); }
  }

  /** With an empty buffer the run leaves the stages that emit. */
  lemma EndedInv(j: Journal, r: string, t: Thread)
    requires Inv(j) && j.mu.None? && r in j.runs && j.buf == map[]
    requires (j.runs[r] == Thread(Ending, NoOp) && t == Thread(Finishing, NoOp))
      || (j.runs[r] == Thread(Parting, NoOp) && t == Thread(Gone, NoOp))
    ensures Inv(SetThread(j, r, t))
  {
    var k := SetThread(j, r, t);
    forall x | x in k.runs ensures OpOk(k.runs[x]) && HandleOk(x, k.runs[x], k) {
      assert HandleOk(x, j.runs[x], j);
    }
  }

  lemma StoppedInv(j: Journal, r: string, t: Thread)
    requires Inv(j) && j.mu.None? && r in j.runs && j.runs[r] == Thread(Stopping, NoOp) && t == Thread(Finishing, NoOp)
    ensures Inv(SetThread(j, r, t))
  {
    var k := SetThread(j, r, t);
    forall x | x in k.runs ensures OpOk(k.runs[x]) && HandleOk(x, k.runs[x], k) {
      assert HandleOk(x, j.runs[x], j);
    }
  }

  // ---------------------------------------------------------------- runs

  lemma ThreadInv(j: Journal, e: Event)
    requires Inv(j) && Enabled(j, e) && (e.Enter? || e.Abort? || e.Return?)
    ensures Inv(Happen(j, e))
  {
    var r := e.run;
    assert HandleOk(r, j.runs[r], j);
    match e {
      case Enter(_) => MoveInv(j, r, Thread(Starting, NoOp), j.active);
      case Abort(_) => MoveInv(j, r, Thread(Stopping, NoOp), j.active);
      case Return(_) => MoveInv(j, r, Thread(Closing, NoOp), j.active);
    }
  }

  lemma FreeInv(j: Journal, e: Event)
    requires Inv(j) && Enabled(j, e) && (e.Free? || e.CreateFails?)
    ensures Inv(Happen(j, e))
  {
    var r := e.run;
    assert HandleOk(r, j.runs[r], j);
    MoveInv(j, r, Thread(if e.Free? then Parting else Uncreated, NoOp), None);
  }

  lemma RecordInv(j: Journal, e: Event)
    requires Inv(j) && Enabled(j, e) && (e.StateLook? || e.StateWrite? || e.StateEvict? || e.StateClose?)
    ensures Inv(Happen(j, e))
  {
    match e {
      case StateLook(r, st) => StateLookInv(j, r, st);
      case StateWrite(r, ok) => StateWriteInv(j, r, ok);
      case StateEvict(r) => EvictInv(j, r);
      case StateClose(r) => CloseInv(j, r);
    }
  }

  lemma HappenInv(j: Journal, e: Event)
    requires Inv(j) && Enabled(j, e)
    ensures Inv(Happen(j, e))
  {
    if e.Accept? {
      AcceptInv(j, e.run);
    } else if e.Unlock? {
      UnlockInv(j);
    } else if e.Put? || e.Spill? || e.Take? {
      BufferInv(j, e);
    } else if e.Lock? || e.KeyLook? || e.EventWrite? {
      HubStepInv(j, e);
    } else if e.StateLook? || e.StateWrite? || e.StateEvict? || e.StateClose? {
      RecordInv(j, e);
    } else if e.Free? || e.CreateFails? {
      FreeInv(j, e);
    } else {
      ThreadInv(j, e);
    }
  }

  lemma StartInv(files: map<string, seq<Entry>>)
    requires forall r :: r in files ==> EndsOnce(files[r])
    ensures Inv(Start(files))
  {}

  lemma {:induction false} RunInv(states: seq<Journal>, events: seq<Event>, n: nat)
    requires IsRun(states, events) && n < |states|
    ensures Inv(states[n])
  {
    if n == 0 {
      StartInv(states[0].files);
    } else {
      RunInv(states, events, n - 1);
      assert StepAt(states, events, n - 1);
      HappenInv(states[n - 1], events[n - 1]);
    }
  }

  // ---------------------------------------------------------------- what follows

  /** In every run file nothing follows a terminal record. */
  lemma EventsPrecedeTheEnd(states: seq<Journal>, events: seq<Event>, n: nat, r: string)
    requires IsRun(states, events) && n < |states| && r in states[n].files
    ensures EndsOnce(states[n].files[r])
  {
    RunInv(states, events, n);
  }

  /** The file of r is as it was, and r is still past its end. */
  predicate EndKept(j: Journal, k: Journal, r: string) {
    r in k.runs && Closed(k.runs[r]) && r in j.files && r in k.files && k.files[r] == j.files[r]
  }

  lemma HubKeepsEnd(j: Journal, e: Event, r: string)
    requires Inv(j) && Enabled(j, e) && r in j.runs && Closed(j.runs[r]) && r in j.files
    requires e.Take? || e.KeyLook? || e.EventWrite?
    ensures EndKept(j, Happen(j, e), r)
  {
    match e {
      case Take(typ) => EmitterReady(j, j.buf[typ]);
      case KeyLook => EmitterReady(j, j.mu.value.job.run);
      case EventWrite(_) => assert Emits(j.runs[j.mu.value.target.value].stage);
    }
  }

  lemma RecordKeepsEnd(j: Journal, e: Event, r: string)
    requires Inv(j) && Enabled(j, e) && r in j.runs && Closed(j.runs[r]) && r in j.files && (e.StateLook? || e.StateWrite?)
    ensures EndKept(j, Happen(j, e), r)
  {
    assert OpOk(j.runs[e.run]);
  }

  lemma EvictKeepsEnd(j: Journal, e: Event, r: string)
    requires Inv(j) && Enabled(j, e) && r in j.runs && Closed(j.runs[r]) && r in j.files && (e.StateEvict? || e.StateClose?)
    ensures EndKept(j, Happen(j, e), r)
  {
    assert OpOk(j.runs[e.run]);
  }

  lemma ThreadKeepsEnd(j: Journal, e: Event, r: string)
    requires Enabled(j, e) && r in j.runs && Closed(j.runs[r]) && r in j.files
    requires e.Accept? || e.Enter? || e.Abort? || e.Return? || e.Free? || e.CreateFails?
    ensures EndKept(j, Happen(j, e), r)
  {}

  lemma OtherKeepsEnd(j: Journal, e: Event, r: string)
    requires Inv(j) && Enabled(j, e) && r in j.runs && Closed(j.runs[r]) && r in j.files
    requires e.Lock? || e.Put? || e.Spill? || e.Unlock?
    ensures EndKept(j, Happen(j, e), r)
  {}

  /** Once the terminal record of a run was written or tried, its file never changes again. */
  lemma EndedFileStays(j: Journal, e: Event, r: string)
    requires Inv(j) && Enabled(j, e) && r in j.runs && Closed(j.runs[r])
    ensures EndKept(j, Happen(j, e), r)
  {
    assert HandleOk(r, j.runs[r], j);
    if e.Take? || e.KeyLook? || e.EventWrite? {
      HubKeepsEnd(j, e, r);
    } else if e.StateLook? || e.StateWrite? {
      RecordKeepsEnd(j, e, r);
    } else if e.StateEvict? || e.StateClose? {
      EvictKeepsEnd(j, e, r);
    } else if e.Lock? || e.Put? || e.Spill? || e.Unlock? {
      OtherKeepsEnd(j, e, r);
    } else {
      ThreadKeepsEnd(j, e, r);
    }
  }

  lemma {:induction false} NothingFollows(states: seq<Journal>, events: seq<Event>, n: nat, m: nat, r: string)
    requires IsRun(states, events) && n <= m < |states| && r in states[n].runs && Closed(states[n].runs[r])
    ensures r in states[m].runs && Closed(states[m].runs[r])
    ensures r in states[n].files && r in states[m].files && states[m].files[r] == states[n].files[r]
  {
    RunInv(states, events, n);
    assert HandleOk(r, states[n].runs[r], states[n]);
    if n < m {
      NothingFollows(states, events, n, m - 1, r);
      RunInv(states, events, m - 1);
      assert StepAt(states, events, m - 1);
      EndedFileStays(states[m - 1], events[m - 1], r);
    }
  }

  /** Whoever flushes, the handle looked up is the cached one, and the append finds it open. */
  lemma NoEvictedHandle(states: seq<Journal>, events: seq<Event>, n: nat)
    requires IsRun(states, events) && n < |events|
    ensures var j, e := states[n], events[n];
      && Enabled(j, e)
      && (e.Take? ==> j.buf[e.typ] in j.handles)
      && (e.KeyLook? ==> j.mu.value.job.run in j.handles)
      && (e.EventWrite? ==> j.mu.value.target.value in j.open && j.mu.value.target.value in j.files)
  {
    RunInv(states, events, n);
    assert StepAt(states, events, n);
    var j, e := states[n], events[n];
    if e.Take? { EmitterReady(j, j.buf[e.typ]); }
    if e.KeyLook? { EmitterReady(j, j.mu.value.job.run); }
    if e.EventWrite? { EmitterReady(j, j.mu.value.target.value); }
  }

  /** A delta never joins a bucket of another run: the guard HubModel.SameRun is kept. */
  lemma OneBucketOwner(states: seq<Journal>, events: seq<Event>, n: nat)
    requires IsRun(states, events) && n < |events| && (events[n].Put? || events[n].Spill?)
    ensures events[n].typ in states[n].buf ==> states[n].buf[events[n].typ] == events[n].run
  {
    RunInv(states, events, n);
    assert StepAt(states, events, n);
  }

  // ---------------------------------------------------------------- handles left behind

  /** A run whose queued record was not written has an empty file, and its handle. */
  predicate LeftOpen(j: Journal, r: string) {
    r in j.runs && (j.runs[r].stage.Dropped? || (j.runs[r].stage.Accepting? && j.runs[r].op.Looked?)) ==>
      r in j.handles && r in j.open && r in j.files && j.files[r] == []
  }

  lemma HubLeavesOpen(j: Journal, e: Event, r: string)
    requires Inv(j) && Enabled(j, e) && LeftOpen(j, r) && (e.Take? || e.KeyLook? || e.EventWrite?)
    ensures LeftOpen(Happen(j, e), r)
  {
    match e {
      case Take(typ) => EmitterReady(j, j.buf[typ]);
      case KeyLook => EmitterReady(j, j.mu.value.job.run);
      case EventWrite(_) => assert Emits(j.runs[j.mu.value.target.value].stage);
    }
  }

  lemma LookLeavesOpen(j: Journal, q: string, st: StateName, r: string)
    requires Inv(j) && Enabled(j, StateLook(q, st)) && LeftOpen(j, r)
    ensures LeftOpen(Happen(j, StateLook(q, st)), r)
  {
    assert HandleOk(q, j.runs[q], j);
    if st.QueuedState? { CreateInv(j, q); }
  }

  lemma WriteLeavesOpen(j: Journal, q: string, ok: bool, r: string)
    requires Inv(j) && Enabled(j, StateWrite(q, ok)) && LeftOpen(j, r)
    ensures LeftOpen(Happen(j, StateWrite(q, ok)), r)
  {
    assert OpOk(j.runs[q]) && HandleOk(q, j.runs[q], j);
  }

  lemma CloseLeavesOpen(j: Journal, e: Event, r: string)
    requires Inv(j) && Enabled(j, e) && LeftOpen(j, r) && (e.StateEvict? || e.StateClose?)
    ensures LeftOpen(Happen(j, e), r)
  {
    assert OpOk(j.runs[e.run]);
  }

  lemma OtherLeavesOpen(j: Journal, e: Event, r: string)
    requires Inv(j) && Enabled(j, e) && LeftOpen(j, r)
    requires e.Accept? || e.Enter? || e.Abort? || e.Return? || e.Free? || e.CreateFails? || e.Lock? || e.Put? || e.Spill?
    ensures LeftOpen(Happen(j, e), r)
  {}

  lemma UnlockLeavesOpen(j: Journal, r: string)
    requires Inv(j) && Enabled(j, Unlock) && LeftOpen(j, r)
    ensures LeftOpen(Happen(j, Unlock), r)
  {}

  lemma StepLeavesOpen(j: Journal, e: Event, r: string)
    requires Inv(j) && Enabled(j, e) && LeftOpen(j, r)
    ensures LeftOpen(Happen(j, e), r)
  {
    match e
    case Take(_) => HubLeavesOpen(j, e, r);
    case KeyLook => HubLeavesOpen(j, e, r);
    case EventWrite(_) => HubLeavesOpen(j, e, r);
    case StateLook(q, st) => LookLeavesOpen(j, q, st, r);
    case StateWrite(q, ok) => WriteLeavesOpen(j, q, ok, r);
    case StateEvict(_) => CloseLeavesOpen(j, e, r);
    case StateClose(_) => CloseLeavesOpen(j, e, r);
    case Unlock => UnlockLeavesOpen(j, r);
    case _ => OtherLeavesOpen(j, e, r);
  }

  /** No step of its own is left to a dropped run, and no other moves it. */
  lemma DroppedStays(j: Journal, e: Event, r: string)
    requires Inv(j) && Enabled(j, e) && r in j.runs && j.runs[r].stage.Dropped?
    ensures r in Happen(j, e).runs && Happen(j, e).runs[r].stage.Dropped?
  {
    assert OpOk(j.runs[r]);
    if e.Unlock? { DroppedHoldsNoLock(j, r); } else { DroppedOtherwise(j, e, r); }
  }

  lemma DroppedHoldsNoLock(j: Journal, r: string)
    requires Inv(j) && Enabled(j, Unlock) && r in j.runs && j.runs[r].stage.Dropped?
    ensures r in Happen(j, Unlock).runs && Happen(j, Unlock).runs[r].stage.Dropped?
  {
    assert JobOk(j, j.mu.value.job);
  }

  lemma DroppedOtherwise(j: Journal, e: Event, r: string)
    requires Enabled(j, e) && !e.Unlock? && r in j.runs && j.runs[r].stage.Dropped? && OpOk(j.runs[r])
    ensures r in Happen(j, e).runs && Happen(j, e).runs[r].stage.Dropped?
  {}

  lemma {:induction false} AlwaysLeftOpen(states: seq<Journal>, events: seq<Event>, n: nat, r: string)
    requires IsRun(states, events) && n < |states|
    ensures LeftOpen(states[n], r)
  {
    if n > 0 {
      AlwaysLeftOpen(states, events, n - 1, r);
      RunInv(states, events, n - 1);
      assert StepAt(states, events, n - 1);
      StepLeavesOpen(states[n - 1], events[n - 1], r);
    }
  }

  /** Of the runs that are over, exactly those refused because their queued record was not written keep
      a handle, cached and open, on a file that stays empty. */
  lemma HandleLeftOpen(states: seq<Journal>, events: seq<Event>, n: nat, r: string)
    requires IsRun(states, events) && n < |states| && r in states[n].runs
    requires var s := states[n].runs[r].stage; s.Gone? || s.Dropped? || s.Uncreated?
    ensures var j := states[n];
      && (r in j.open <==> j.runs[r].stage.Dropped?) && (r in j.handles <==> j.runs[r].stage.Dropped?)
      && (r in j.files <==> !j.runs[r].stage.Uncreated?) && (j.runs[r].stage.Dropped? ==> j.files[r] == [])
  {
    RunInv(states, events, n);
    AlwaysLeftOpen(states, events, n, r);
    assert HandleOk(r, states[n].runs[r], states[n]);
  }

  /** And it keeps it for good. */
  lemma {:induction false} NeverClosed(states: seq<Journal>, events: seq<Event>, n: nat, m: nat, r: string)
    requires IsRun(states, events) && n <= m < |states| && r in states[n].runs && states[n].runs[r].stage.Dropped?
    ensures r in states[m].runs && states[m].runs[r].stage.Dropped? && r in states[m].open && r in states[m].handles
  {
    if n < m {
      NeverClosed(states, events, n, m - 1, r);
      RunInv(states, events, m - 1);
      assert StepAt(states, events, m - 1);
      DroppedStays(states[m - 1], events[m - 1], r);
    }
    AlwaysLeftOpen(states, events, m, r);
  }

  /** A run in which it happens: the file is created, the record is not written. */
  lemma RecordRefused(r: string) returns (states: seq<Journal>, events: seq<Event>)
    requires r != ""
    ensures IsRun(states, events) && events == [Accept(r), StateLook(r, QueuedState), StateWrite(r, false)]
    ensures r in states[3].runs && states[3].runs[r].stage.Dropped? && r in states[3].open
  {
    var s0 := Start(map[]);
    var s1 := Happen(s0, Accept(r));
    var s2 := Happen(s1, StateLook(r, QueuedState));
    var s3 := Happen(s2, StateWrite(r, false));
    states, events := [s0, s1, s2, s3], [Accept(r), StateLook(r, QueuedState), StateWrite(r, false)];
    assert forall n :: 0 <= n < |events| ==> StepAt(states, events, n);
  }
}

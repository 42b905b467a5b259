/** One session's run files (ai-runtime/session/journal_store.go:79-158), its event hub's buffer and
    lock (ai-runtime/agent/event_hub.go) and the order in which the supervisor uses both
    (ai-runtime/agent/supervisor.go:190-459). A lookup of a handle, an append, an eviction and a close
    are separate steps, so a timer flush, a subscriber's flush or the deferred EndRun of an earlier
    run can fall between any two of them. */
module JournalModel {
  import opened Events

  datatype StateName = QueuedState | RunningState | WaitingState | TerminalState

  datatype Entry = StateEntry(state: StateName) | EventEntry

  /** Where the goroutine of a run stands between its journal and hub calls. */
  datatype Stage =
    | Accepting | Beginning | Waiting | Starting | Recording | Working | Closing | Ending | Stopping
    | Finishing | Cleared | Parting | Gone | Dropped | Uncreated

  /** An AppendState in progress. */
  datatype FileOp = NoOp | Looked(state: StateName) | Written | Evicted

  datatype Thread = Thread(stage: Stage, op: FileOp)

  /** Who holds the hub's lock, and for what. last: the run.finished event. */
  datatype Job =
    | BeginJob(run: string) | EndJob(run: string) | KeyJob(run: string, last: bool, done: bool)
    | SpillJob(run: string, typ: EventType) | FlushJob | CloseJob

  /** target: the run whose handle was looked up for the append that comes next. */
  datatype HubOp = HubOp(job: Job, target: Option<string>)

  /** files: the run files; handles: the cached handles; open: the handles not closed;
      buf: the run of each delta bucket. */
  datatype Journal = Journal(files: map<string, seq<Entry>>, handles: set<string>, open: set<string>,
                             active: Option<string>, runs: map<string, Thread>,
                             buf: map<EventType, string>, cur: string, closed: bool, mu: Option<HubOp>)

  predicate OfRun(job: Job, r: string) {
    match job
    case FlushJob => false
    case CloseJob => false
    case _ => job.run == r
  }

  /** The goroutine of r is inside a hub call. */
  predicate InHub(j: Journal, r: string) {
    j.mu.Some? && OfRun(j.mu.value.job, r)
  }

  /** The goroutine of r stands at this stage and is in no call. */
  predicate At(j: Journal, r: string, stage: Stage) {
    r in j.runs && j.runs[r] == Thread(stage, NoOp) && !InHub(j, r)
  }

  /** The body runs: its agent and its token stream call the hub and the journal side by side. */
  predicate Inside(j: Journal, r: string) {
    r in j.runs && j.runs[r].stage.Working?
  }

  datatype Event =
    | Accept(run: string) | Enter(run: string) | Abort(run: string) | Return(run: string) | Free(run: string)
    | CreateFails(run: string)
    | StateLook(run: string, state: StateName) | StateWrite(run: string, ok: bool) | StateEvict(run: string) | StateClose(run: string)
    | Lock(job: Job) | Put(run: string, typ: EventType) | Spill(run: string, typ: EventType)
    | Take(typ: EventType) | KeyLook | EventWrite(ok: bool) | Unlock

  predicate MayWrite(stage: Stage, st: StateName) {
    match st
    case QueuedState => stage.Accepting?
    case RunningState => stage.Recording?
    case WaitingState => stage.Working?
    case TerminalState => stage.Finishing?
  }

  predicate MayLock(j: Journal, job: Job) {
    match job
    case BeginJob(r) => At(j, r, Beginning)
    case EndJob(r) => At(j, r, Ending) || At(j, r, Parting)
    case KeyJob(r, last, done) =>
      !done && ((!last && (At(j, r, Starting) || Inside(j, r) || At(j, r, Closing)))
                || (last && (At(j, r, Closing) || At(j, r, Stopping))))
    case SpillJob(_, _) => false
    case FlushJob => true
    case CloseJob => true
  }

  /** Which buckets the holder of the lock flushes. */
  predicate Flushes(job: Job, typ: EventType) {
    match job
    case KeyJob(_, _, _) => false
    case SpillJob(_, t) => t == typ
    case _ => true
  }

  predicate JobDone(j: Journal, job: Job) {
    match job
    case KeyJob(_, _, done) => done || j.closed
    case SpillJob(_, t) => t !in j.buf
    case _ => j.buf == map[]
  }

  predicate Enabled(j: Journal, e: Event) {
    match e
    case Accept(r) => r != "" && r !in j.runs && r !in j.files && j.active.None?
    case Enter(r) => At(j, r, Waiting)
    case Abort(r) => At(j, r, Waiting)
    case Return(r) => At(j, r, Working)
    case Free(r) => At(j, r, Cleared)
    case CreateFails(r) => At(j, r, Accepting)
    case StateLook(r, st) =>
      && r in j.runs && j.runs[r].op.NoOp? && MayWrite(j.runs[r].stage, st)
      && (j.runs[r].stage.Working? || !InHub(j, r))
    case StateWrite(r, _) => r in j.runs && j.runs[r].op.Looked?
    case StateEvict(r) => r in j.runs && j.runs[r].op.Written?
    case StateClose(r) => r in j.runs && j.runs[r].op.Evicted?
    case Lock(job) => j.mu.None? && MayLock(j, job)
    case Put(r, typ) => j.mu.None? && !j.closed && Inside(j, r) && !IsKeyEvent(typ)
    case Spill(r, typ) => j.mu.None? && !j.closed && Inside(j, r) && !IsKeyEvent(typ)
    case Take(typ) => j.mu.Some? && j.mu.value.target.None? && typ in j.buf && Flushes(j.mu.value.job, typ)
    case KeyLook =>
      j.mu.Some? && j.mu.value.target.None? && j.mu.value.job.KeyJob? && !j.mu.value.job.done && !j.closed
    case EventWrite(_) => j.mu.Some? && j.mu.value.target.Some?
    case Unlock => j.mu.Some? && j.mu.value.target.None? && JobDone(j, j.mu.value.job)
  }

  /** The handle of r: the cached one, or a new file; an existing file without a handle is refused. */
  predicate Found(j: Journal, r: string) {
    r in j.handles || r !in j.files
  }

  function Lookup(j: Journal, r: string): Journal {
    if r in j.handles || r in j.files then j
    else j.(files := j.files[r := []], handles := j.handles + {r}, open := j.open + {r})
  }

  /** An append through a handle that was looked up: refused once the handle is closed. */
  function Append(j: Journal, r: string, entry: Entry, ok: bool): Journal {
    if ok && r in j.open && r in j.files then j.(files := j.files[r := j.files[r] + [entry]]) else j
  }

  function SetThread(j: Journal, r: string, t: Thread): Journal {
    j.(runs := j.runs[r := t])
  }

  /** The stage after a state record; written: the append went through. */
  function AfterState(stage: Stage, written: bool): Thread {
    match stage
    case Accepting => Thread(if written then Beginning else Dropped, NoOp)
    case Recording => Thread(Working, NoOp)
    case Finishing => Thread(Finishing, Written)
    case _ => Thread(stage, NoOp)
  }

  function AfterHub(stage: Stage, job: Job): Stage {
    match job
    case BeginJob(_) => Waiting
    case EndJob(_) => if stage.Ending? then Finishing else Gone
    case KeyJob(_, last, _) =>
      if stage.Starting? then Recording
      else if last && stage.Closing? then Ending
      else if last && stage.Stopping? then Finishing
      else stage
    case _ => stage
  }

  /** The thread of a run when its hub call returns. */
  function Resumed(t: Thread, job: Job): Thread {
    t.(stage := AfterHub(t.stage, job))
  }

  function Released(j: Journal, job: Job): Journal {
    var k := j.(mu := None, cur := if j.closed then j.cur else if job.BeginJob? then job.run else if job.EndJob? then "" else j.cur);
    if job.FlushJob? || job.CloseJob? || job.run !in j.runs then k
    else SetThread(k, job.run, Resumed(j.runs[job.run], job))
  }

  function Happen(j: Journal, e: Event): Journal
    requires Enabled(j, e)
  {
    match e
    case Accept(r) => SetThread(j, r, Thread(Accepting, NoOp)).(active := Some(r))
    case Enter(r) => SetThread(j, r, Thread(Starting, NoOp))
    case Abort(r) => SetThread(j, r, Thread(Stopping, NoOp))
    case Return(r) => SetThread(j, r, Thread(Closing, NoOp))
    case Free(r) => SetThread(j, r, Thread(Parting, NoOp)).(active := None)
    case CreateFails(r) => SetThread(j, r, Thread(Uncreated, NoOp)).(active := None)
    case StateLook(r, st) =>
      if Found(j, r) then SetThread(Lookup(j, r), r, Thread(j.runs[r].stage, Looked(st)))
      else SetThread(j, r, AfterState(j.runs[r].stage, false))
    case StateWrite(r, ok) =>
      var t := AfterState(j.runs[r].stage, ok && r in j.open && r in j.files);
      var k := SetThread(Append(j, r, StateEntry(j.runs[r].op.state), ok), r, t);
      if t.stage.Dropped? then k.(active := None) else k
    case StateEvict(r) => SetThread(j, r, Thread(j.runs[r].stage, Evicted)).(handles := j.handles - {r})
    case StateClose(r) => SetThread(j, r, Thread(Cleared, NoOp)).(open := j.open - {r})
    case Lock(job) =>
      if job.CloseJob? then j.(mu := Some(HubOp(job, None)), closed := true) else j.(mu := Some(HubOp(job, None)))
    case Put(r, typ) => if typ in j.buf then j else j.(buf := j.buf[typ := r])
    case Spill(r, typ) =>
      j.(buf := if typ in j.buf then j.buf else j.buf[typ := r], mu := Some(HubOp(SpillJob(r, typ), None)))
    case Take(typ) =>
      var r := j.buf[typ];
      Lookup(j.(buf := j.buf - {typ}), r)
        .(mu := Some(HubOp(j.mu.value.job, if Found(j, r) then Some(r) else None)))
    case KeyLook =>
      var r := j.mu.value.job.run;
      var job := j.mu.value.job.(done := true);
      Lookup(j, r).(mu := Some(HubOp(job, if Found(j, r) then Some(r) else None)))
    case EventWrite(ok) =>
      Append(j, j.mu.value.target.value, EventEntry, ok).(mu := Some(HubOp(j.mu.value.job, None)))
    case Unlock => Released(j, j.mu.value.job)
  }

  ghost predicate StepAt(states: seq<Journal>, events: seq<Event>, n: nat) {
    n < |events| && n + 1 < |states| && Enabled(states[n], events[n]) && states[n + 1] == Happen(states[n], events[n])
  }

  function Start(files: map<string, seq<Entry>>): Journal {
    Journal(files, {}, {}, None, map[], map[], "", false, None)
  }

  /** Nothing follows a terminal record. */
  predicate EndsOnce(file: seq<Entry>) {
    forall k :: 0 <= k < |file| - 1 ==> file[k] != StateEntry(TerminalState)
  }

  predicate Ended(file: seq<Entry>) {
    file != [] && file[|file| - 1] == StateEntry(TerminalState)
  }

  ghost predicate IsRun(states: seq<Journal>, events: seq<Event>) {
    && |states| == |events| + 1 && states[0] == Start(states[0].files)
    && (forall r :: r in states[0].files ==> EndsOnce(states[0].files[r]))
    && (forall n :: 0 <= n < |events| ==> StepAt(states, events, n))
  }
}

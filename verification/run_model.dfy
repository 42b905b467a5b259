/** Admission and life of background runs (ai-runtime/agent/supervisor.go, runtime.go, manager.go,
    run.go) as a transition system over any number of sessions and runs. Each step is one lock
    section or one channel operation of the source. */
module RunModel {
  import opened Events

  datatype RunState = Queued | Running | WaitingInput | WaitingCapability | Completed | Failed | Cancelled

  /** Errors, as far as finalizeRun tells them apart. */
  datatype Fault = ContextEnded | OtherFault

  datatype Result = Result(state: RunState, err: Option<Fault>, persisted: bool)

  datatype Reason = TooManyPending | SessionArchived | SessionRetired | RunActive | SessionNotBound | HubFailed | JournalWrite

  predicate Terminal(s: RunState) {
    s.Completed? || s.Failed? || s.Cancelled?
  }

  /** How far the goroutine of a run has come. held: the exit still has gate and slot to give back. */
  datatype Phase =
    | Looked | Tokened | Refused(why: Reason) | Rejected(why: Reason)
    | Reserved | Bound | Undoing(why: Reason) | Recorded
    | AtGate | AtSlot | Admitted | Starting | Body
    | DropGate | DropToken
    | Closing(res: Result, held: bool) | Journaled(res: Result, held: bool) | Cleared(res: Result, held: bool)
    | Finished(held: bool) | Exiting | Leaving | Done

  /** How often a run took and gave back one kind of token. */
  datatype Ledger = Ledger(took: nat, gave: nat)

  /** What Session.Run returned, and whether the run's context was done by then. */
  datatype Returned = Returned(res: Result, ctxDone: bool)

  /** closes counts the closings of done; attempted: the terminal record was appended or tried;
      announced: the state in the run.finished event. */
  datatype Run = Run(rt: int, phase: Phase, state: RunState, result: Option<Result>, closes: nat, attempted: bool,
                     returned: Option<Returned>, announced: Option<RunState>,
                     cancellable: bool, cancelled: bool, token: Ledger, gate: Ledger, slot: Ledger)

  datatype Runtime = Runtime(bound: bool, archived: bool, retired: bool, active: Option<string>, gate: nat)

  /** marked: the runtimes whose store has the record that says archived. */
  datatype Sys = Sys(maxRuns: nat, maxPending: nat, closed: bool, hostDone: bool, registry: map<string, int>,
                     runtimes: map<int, Runtime>, marked: set<int>, runs: map<string, Run>, pending: nat, slots: nat)

  // ---------------------------------------------------------------- run records

  function NewRun(rt: int): Run {
    Run(rt, Looked, Queued, None, 0, false, None, None, false, false, Ledger(0, 0), Ledger(0, 0), Ledger(0, 0))
  }

  /** AgentRun.transition: done is closed on entering a terminal state, once. */
  function Transition(run: Run, next: RunState): Run {
    if run.state == next then run
    else run.(state := next, closes := if Terminal(next) && run.closes == 0 then 1 else run.closes)
  }

  /** AgentRun.finish: the result first, then the state. */
  function Finish(run: Run, res: Result): Run {
    Transition(run.(result := Some(res)), res.state)
  }

  /** The cancellation override of execute. */
  function Override(res: Result, ctxDone: bool): Result {
    if ctxDone then Result(Cancelled, if res.err.Some? then res.err else Some(ContextEnded), res.persisted) else res
  }

  /** The normalisation of finalizeRun. */
  function Normal(res: Result): (r: Result)
    ensures Terminal(r.state) && r.err == res.err && r.persisted == res.persisted
  {
    if res.err.Some? then Result(if res.err.value.ContextEnded? then Cancelled else Failed, res.err, res.persisted)
    else if !Terminal(res.state) then res.(state := Completed)
    else res
  }

  /** reserveRun: the order of the refusals is the source's. */
  function Verdict(rt: Runtime): Option<Reason> {
    if rt.archived then Some(SessionArchived)
    else if rt.retired then Some(SessionRetired)
    else if rt.active.Some? then Some(RunActive)
    else if !rt.bound then Some(SessionNotBound)
    else None
  }

  // ---------------------------------------------------------------- what a run holds

  /** A pending token, its session's gate, a slot; and whether it is its session's active run. */
  datatype Holding = Holding(token: bool, gate: bool, slot: bool, active: bool)

  function Holds(p: Phase): Holding {
    match p
    case Looked => Holding(false, false, false, false)
    case Tokened => Holding(true, false, false, false)
    case Refused(_) => Holding(true, false, false, false)
    case Rejected(_) => Holding(false, false, false, false)
    case Reserved => Holding(true, false, false, true)
    case Bound => Holding(true, false, false, true)
    case Undoing(_) => Holding(true, false, false, true)
    case Recorded => Holding(true, false, false, true)
    case AtGate => Holding(true, false, false, true)
    case AtSlot => Holding(true, true, false, true)
    case Admitted => Holding(true, true, true, true)
    case Starting => Holding(false, true, true, true)
    case Body => Holding(false, true, true, true)
    case DropGate => Holding(true, true, false, true)
    case DropToken => Holding(true, false, false, true)
    case Closing(_, held) => Holding(false, held, held, true)
    case Journaled(_, held) => Holding(false, held, held, true)
    case Cleared(_, held) => Holding(false, held, held, false)
    case Finished(held) => Holding(false, held, held, false)
    case Exiting => Holding(false, true, true, false)
    case Leaving => Holding(false, true, false, false)
    case Done => Holding(false, false, false, false)
  }

  predicate Ended(p: Phase) {
    p.Finished? || p.Exiting? || p.Leaving? || p.Done?
  }

  // ---------------------------------------------------------------- steps of a run

  /** What the world decides at a step: go on, fail, or what Session.Run returned. */
  datatype Choice = Go | Fail | Returns(res: Result)

  predicate CtxDone(s: Sys, run: Run) {
    s.hostDone || run.cancelled
  }

  predicate CanStep(s: Sys, id: string, c: Choice) {
    id in s.runs && s.runs[id].rt in s.runtimes &&
    var run := s.runs[id];
    match run.phase
    case Reserved => !c.Returns?
    case Bound => !c.Returns?
    case AtGate => (c.Go? && s.runtimes[run.rt].gate == 0) || (c.Fail? && CtxDone(s, run))
    case AtSlot => (c.Go? && s.slots < s.maxRuns) || (c.Fail? && CtxDone(s, run))
    case Body => c.Returns?
    case Done => false
    case Rejected(_) => false
    case _ => c.Go?
  }

  /** Where the goroutine stands after a step; room: a pending token is free. */
  function NextPhase(p: Phase, verdict: Option<Reason>, room: bool, ctxDone: bool, c: Choice): Phase {
    match p
    case Looked => if room then Tokened else Rejected(TooManyPending)
    case Tokened => if verdict.Some? then Refused(verdict.value) else Reserved
    case Refused(why) => Rejected(why)
    case Reserved => if c.Fail? then Undoing(HubFailed) else Bound
    case Bound => if c.Fail? then Undoing(JournalWrite) else Recorded
    case Undoing(why) => Refused(why)
    case Recorded => AtGate
    case AtGate => if c.Fail? then DropToken else AtSlot
    case AtSlot => if c.Fail? then DropGate else Admitted
    case DropGate => DropToken
    case DropToken => Closing(Result(Cancelled, Some(ContextEnded), false), false)
    case Admitted => Starting
    case Starting => Body
    case Body => if c.Returns? then Closing(Override(c.res, ctxDone), true) else p
    case Closing(res, held) => Journaled(Normal(res), held)
    case Journaled(res, held) => Cleared(res, held)
    case Cleared(res, held) => Finished(held)
    case Finished(held) => if held then Exiting else Done
    case Exiting => Leaving
    case Leaving => Done
    case _ => p
  }

  /** A channel operation: a token goes in, comes out, or neither. */
  datatype Move = Keep | TakeOne | GiveOne

  function TokenMove(p: Phase, room: bool): Move {
    match p
    case Looked => if room then TakeOne else Keep
    case Refused(_) => GiveOne
    case DropToken => GiveOne
    case Admitted => GiveOne
    case _ => Keep
  }

  function GateMove(p: Phase, c: Choice): Move {
    match p
    case AtGate => if c.Fail? then Keep else TakeOne
    case DropGate => GiveOne
    case Leaving => GiveOne
    case _ => Keep
  }

  function SlotMove(p: Phase, c: Choice): Move {
    match p
    case AtSlot => if c.Fail? then Keep else TakeOne
    case Exiting => GiveOne
    case _ => Keep
  }

  /** A move in the channel, and in the run's own ledger. */
  function Moved(n: nat, m: Move): nat {
    if m.TakeOne? then n + 1 else if m.GiveOne? && n > 0 then n - 1 else n
  }

  function Booked(l: Ledger, m: Move): Ledger {
    match m
    case Keep => l
    case TakeOne => l.(took := l.took + 1)
    case GiveOne => l.(gave := l.gave + 1)
  }

  /** What else a step does to the run. */
  function Lived(run: Run): Run {
    match run.phase
    case Recorded => run.(cancellable := true)
    case Starting => Transition(run, Running)
    case Closing(_, _) => run.(attempted := true)
    case Cleared(res, _) => Finish(run, res)
    case _ => run
  }

  function Came(run: Run, ctxDone: bool, c: Choice): Option<Returned> {
    if run.phase.Body? && c.Returns? then Some(Returned(c.res, ctxDone)) else run.returned
  }

  /** run.finished goes out before the terminal record: after the cancellation override of what the
      body returned, or as cancelled when the run leaves before its body. */
  function Told(run: Run, ctxDone: bool, c: Choice): Option<RunState> {
    if run.phase.Body? && c.Returns? then Some(Override(c.res, ctxDone).state)
    else if run.phase.DropToken? then Some(Cancelled)
    else run.announced
  }

  function NextRun(run: Run, verdict: Option<Reason>, room: bool, ctxDone: bool, c: Choice): Run {
    Lived(run).(phase := NextPhase(run.phase, verdict, room, ctxDone, c),
                returned := Came(run, ctxDone, c),
                announced := Told(run, ctxDone, c),
                token := Booked(run.token, TokenMove(run.phase, room)),
                gate := Booked(run.gate, GateMove(run.phase, c)),
                slot := Booked(run.slot, SlotMove(run.phase, c)))
  }

  /** The reservation: made by reserveRun, taken back by releaseRunReservation and finalizeRun, which
      leave active alone when it belongs to another run. */
  function NextActive(active: Option<string>, p: Phase, verdict: Option<Reason>, id: string): Option<string> {
    match p
    case Tokened => if verdict.Some? then active else Some(id)
    case Undoing(_) => if active == Some(id) then None else active
    case Journaled(_, _) => if active == Some(id) then None else active
    case _ => active
  }

  function NextRuntime(rt: Runtime, p: Phase, id: string, c: Choice): Runtime {
    rt.(active := NextActive(rt.active, p, Verdict(rt), id), gate := Moved(rt.gate, GateMove(p, c)))
  }

  function Stepped(s: Sys, id: string, c: Choice): Run
    requires CanStep(s, id, c)
  {
    var run := s.runs[id];
    NextRun(run, Verdict(s.runtimes[run.rt]), s.pending < s.maxPending, CtxDone(s, run), c)
  }

  function Step(s: Sys, id: string, c: Choice): Sys
    requires CanStep(s, id, c)
  {
    var run := s.runs[id];
    s.(runs := s.runs[id := Stepped(s, id, c)],
       runtimes := s.runtimes[run.rt := NextRuntime(s.runtimes[run.rt], run.phase, id, c)],
       pending := Moved(s.pending, TokenMove(run.phase, s.pending < s.maxPending)),
       slots := Moved(s.slots, SlotMove(run.phase, c)))
  }

  // ---------------------------------------------------------------- what else happens

  /** The commit that goes with an Archive: none, the store's MarkArchived, or what a caller likes. */
  datatype Commit = NoCommit | MarkStore(writes: bool) | OfCaller(ok: bool)

  /** MarkArchived answers for a store that has the record already, and appends it otherwise. */
  function Answer(c: Commit, marked: bool): bool {
    match c
    case NoCommit => true
    case MarkStore(writes) => marked || writes
    case OfCaller(ok) => ok
  }

  function MarkAfter(c: Commit, marked: bool): bool {
    marked || (c.MarkStore? && c.writes)
  }

  /** Whether the store a runtime is made for has the record, and whether Archive(nil) restores the mark
      before anybody else knows the runtime. */
  datatype Origin = Origin(marked: bool, restored: bool)

  datatype Event =
    | Advance(id: string, choice: Choice)
    | Submit(id: string, sessionId: string)
    | Mark(id: string, state: RunState)
    | CancelRun(sessionId: string, id: string)
    | CancelHandle(id: string)
    | Register(sessionId: string, k: int, origin: Origin)
    | Remove(sessionId: string)
    | BindSession(k: int, bound: bool)
    | Retire(k: int)
    | Archive(k: int, commit: Commit)
    | Close
    | CancelHost

  predicate Enabled(s: Sys, e: Event) {
    match e
    case Advance(id, c) => CanStep(s, id, c)
    case Submit(id, _) => id !in s.runs
    case Mark(id, st) => id in s.runs && s.runs[id].phase.Body? && !Terminal(st) && !st.Queued?
    case CancelHandle(id) => id in s.runs
    case BindSession(k, _) => k in s.runtimes
    case Retire(k) => k in s.runtimes
    case Archive(k, _) => k in s.runtimes
    case CancelHost => s.closed
    case _ => true
  }

  /** Run.Cancel: nothing happens before the cancel function is set. */
  function CancelOf(run: Run): Run {
    if run.cancellable then run.(cancelled := true) else run
  }

  /** CancelRun: the run must be the active one of the session. */
  predicate Finds(s: Sys, sessionId: string, id: string) {
    && sessionId in s.registry && s.registry[sessionId] in s.runtimes
    && s.runtimes[s.registry[sessionId]].active == Some(id) && id in s.runs
  }

  /** Register refuses after Close, a retired runtime and a taken id. */
  predicate Accepts(s: Sys, sessionId: string, k: int) {
    !s.closed && sessionId !in s.registry && (k in s.runtimes ==> !s.runtimes[k].retired)
  }

  function Happen(s: Sys, e: Event): Sys
    requires Enabled(s, e)
  {
    match e
    case Advance(id, c) => Step(s, id, c)
    case Submit(id, sessionId) =>
      if s.closed || sessionId !in s.registry then s else SetRun(s, id, NewRun(s.registry[sessionId]))
    case Mark(id, st) => SetRun(s, id, Transition(s.runs[id], st))
    case CancelRun(sessionId, id) => if Finds(s, sessionId, id) then SetRun(s, id, CancelOf(s.runs[id])) else s
    case CancelHandle(id) => SetRun(s, id, CancelOf(s.runs[id]))
    case Register(sessionId, k, origin) =>
      if !Accepts(s, sessionId, k) then s
      else if k in s.runtimes then s.(registry := s.registry[sessionId := k])
      else s.(registry := s.registry[sessionId := k],
              runtimes := s.runtimes[k := Runtime(false, origin.marked && origin.restored, false, None, 0)],
              marked := Including(s.marked, k, origin.marked))
    case Remove(sessionId) => s.(registry := s.registry - {sessionId})
    case BindSession(k, bound) => SetRuntime(s, k, s.runtimes[k].(bound := bound))
    case Retire(k) => if s.runtimes[k].active.Some? then s else SetRuntime(s, k, s.runtimes[k].(retired := true))
    case Archive(k, commit) =>
      if s.runtimes[k].active.Some? then s
      else SetRuntime(s, k, s.runtimes[k].(archived := Answer(commit, k in s.marked)))
           .(marked := Including(s.marked, k, MarkAfter(commit, k in s.marked)))
    case Close => s.(closed := true)
    case CancelHost => s.(hostDone := true)
  }

  function Including(ks: set<int>, k: int, isIn: bool): set<int> {
    if isIn then ks + {k} else ks - {k}
  }

  function SetRun(s: Sys, id: string, run: Run): Sys {
    s.(runs := s.runs[id := run])
  }

  function SetRuntime(s: Sys, k: int, rt: Runtime): Sys {
    s.(runtimes := s.runtimes[k := rt])
  }

  function Start(maxRuns: nat, maxPending: nat): Sys {
    Sys(maxRuns, maxPending, false, false, map[], map[], {}, map[], 0, 0)
  }

  ghost predicate StepAt(states: seq<Sys>, events: seq<Event>, n: nat) {
    n < |events| && n + 1 < |states| && Enabled(states[n], events[n]) && states[n + 1] == Happen(states[n], events[n])
  }

  /** The states of an execution with room for at least one run. */
  ghost predicate IsRun(states: seq<Sys>, events: seq<Event>) {
    && |states| == |events| + 1
    && states[0] == Start(states[0].maxRuns, states[0].maxPending) && states[0].maxRuns > 0
    && (forall n :: 0 <= n < |events| ==> StepAt(states, events, n))
  }
}

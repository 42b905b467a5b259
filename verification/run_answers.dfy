/** What a run is told and what becomes of it, in terms of what happened to it: the reason of a refusal,
    the effect of a cancellation, the state that is announced and the one that is recorded. */
module RunAnswers {
  import opened Events
  import opened RunModel
  import opened RunInvariant
  import opened RunTheorems

  // ---------------------------------------------------------------- what happened

  /** The goroutine of the run took a step from this phase. */
  ghost predicate StepsFrom(states: seq<Sys>, events: seq<Event>, i: nat, id: string, p: Phase) {
    && i < |events| && i + 1 < |states| && events[i].Advance? && events[i].id == id
    && id in states[i].runs && states[i].runs[id].phase == p && states[i].runs[id].rt in states[i].runtimes
  }

  /** Why the run was refused at step i. */
  ghost predicate RefusesFor(states: seq<Sys>, events: seq<Event>, i: nat, id: string, why: Reason) {
    i < |events| && i + 1 < |states| && id in states[i].runs && states[i].runs[id].rt in states[i].runtimes &&
    var s, rt := states[i], states[i].runtimes[states[i].runs[id].rt];
    match why
    case TooManyPending => StepsFrom(states, events, i, id, Looked) && s.pending >= s.maxPending
    case SessionArchived => StepsFrom(states, events, i, id, Tokened) && rt.archived
    case SessionRetired => StepsFrom(states, events, i, id, Tokened) && !rt.archived && rt.retired
    case RunActive => StepsFrom(states, events, i, id, Tokened) && !rt.archived && !rt.retired && rt.active.Some?
    case SessionNotBound =>
      StepsFrom(states, events, i, id, Tokened) && !rt.archived && !rt.retired && rt.active.None? && !rt.bound
    case HubFailed => StepsFrom(states, events, i, id, Reserved) && events[i].choice.Fail?
    case JournalWrite => StepsFrom(states, events, i, id, Bound) && events[i].choice.Fail?
  }

  /** The run got its session at step i: open to runs, idle and bound. */
  ghost predicate Reserves(states: seq<Sys>, events: seq<Event>, i: nat, id: string) {
    StepsFrom(states, events, i, id, Tokened) &&
    var rt := states[i].runtimes[states[i].runs[id].rt];
    !rt.archived && !rt.retired && rt.active.None? && rt.bound
  }

  /** Somebody cancelled the run at step i, by its handle or as the active run of its session. */
  ghost predicate Cancels(states: seq<Sys>, events: seq<Event>, i: nat, id: string) {
    i < |events| && i < |states| && id in states[i].runs && Started(states[i].runs[id].phase) &&
    match events[i]
    case CancelHandle(x) => x == id
    case CancelRun(session, x) =>
      && x == id && session in states[i].registry && states[i].registry[session] in states[i].runtimes
      && states[i].runtimes[states[i].registry[session]].active == Some(id)
    case _ => false
  }

  /** The execution of the run has begun. */
  predicate Started(p: Phase) {
    !(p.Looked? || p.Tokened? || p.Refused? || p.Rejected? || p.Reserved? || p.Bound? || p.Undoing? || p.Recorded?)
  }

  // ---------------------------------------------------------------- refusals

  predicate WhyOf(p: Phase, why: Reason) {
    match p
    case Refused(w) => w == why
    case Rejected(w) => w == why
    case Undoing(w) => w == why
    case _ => false
  }

  /** A run that has, or had, its session. */
  predicate GotSession(p: Phase) {
    !(p.Looked? || p.Tokened? || p.Refused? || p.Rejected?)
  }

  lemma StepWhy(s: Sys, e: Event, id: string, why: Reason)
    requires Enabled(s, e) && id in Happen(s, e).runs && WhyOf(Happen(s, e).runs[id].phase, why)
    ensures id in s.runs && s.runs[id].rt == Happen(s, e).runs[id].rt
    ensures WhyOf(s.runs[id].phase, why) || RefusesFor([s, Happen(s, e)], [e], 0, id, why)
  {
    OwnStep(s, e, id);
    if !WhyOf(s.runs[id].phase, why) {
      var run := s.runs[id];
      hide Happen, Lived, Came, Told;
      PhaseWhy(run.phase, s.runtimes[run.rt], s.pending < s.maxPending, CtxDone(s, run), e.choice, why);
    }
  }

  /** A phase changes by a step of the run itself. */
  lemma OwnStep(s: Sys, e: Event, id: string)
    requires Enabled(s, e) && id in Happen(s, e).runs
    ensures id !in s.runs ==> Happen(s, e).runs[id].phase.Looked?
    ensures id in s.runs ==> Happen(s, e).runs[id].rt == s.runs[id].rt
    ensures id in s.runs && Happen(s, e).runs[id].phase != s.runs[id].phase ==>
      && e.Advance? && e.id == id && s.runs[id].rt in s.runtimes
      && Happen(s, e).runs[id].phase == NextPhase(s.runs[id].phase, Verdict(s.runtimes[s.runs[id].rt]), s.pending < s.maxPending,
                                                  CtxDone(s, s.runs[id]), e.choice)
  {}

  lemma PhaseWhy(p: Phase, rt: Runtime, room: bool, ctxDone: bool, c: Choice, why: Reason)
    requires WhyOf(NextPhase(p, Verdict(rt), room, ctxDone, c), why) && !WhyOf(p, why)
    ensures match why
      case TooManyPending => p.Looked? && !room
      case HubFailed => p.Reserved? && c.Fail?
      case JournalWrite => p.Bound? && c.Fail?
      case SessionArchived => p.Tokened? && rt.archived
      case SessionRetired => p.Tokened? && !rt.archived && rt.retired
      case RunActive => p.Tokened? && !rt.archived && !rt.retired && rt.active.Some?
      case SessionNotBound => p.Tokened? && !rt.archived && !rt.retired && rt.active.None? && !rt.bound
  {}

  /** Whoever is refused is refused for what was the case when it was looked at. */
  lemma {:induction false} RefusedFor(states: seq<Sys>, events: seq<Event>, n: nat, id: string, why: Reason)
    requires IsRun(states, events) && n < |states| && id in states[n].runs && WhyOf(states[n].runs[id].phase, why)
    ensures exists i :: 0 <= i < n && RefusesFor(states, events, i, id, why)
  {
    if n > 0 {
      assert StepAt(states, events, n - 1);
      StepWhy(states[n - 1], events[n - 1], id, why);
      if WhyOf(states[n - 1].runs[id].phase, why) {
        RefusedFor(states, events, n - 1, id, why);
      } else {
        assert RefusesFor(states, events, n - 1, id, why);
      }
    }
  }

  lemma StepReserves(s: Sys, e: Event, id: string)
    requires Enabled(s, e) && id in Happen(s, e).runs && GotSession(Happen(s, e).runs[id].phase)
    ensures id in s.runs && (GotSession(s.runs[id].phase) || Reserves([s, Happen(s, e)], [e], 0, id))
  {
    OwnStep(s, e, id);
  }

  /** Whoever has its session found it open, idle and bound when it took it. */
  lemma {:induction false} ReservedFor(states: seq<Sys>, events: seq<Event>, n: nat, id: string)
    requires IsRun(states, events) && n < |states| && id in states[n].runs && GotSession(states[n].runs[id].phase)
    ensures exists i :: 0 <= i < n && Reserves(states, events, i, id)
  {
    if n > 0 {
      assert StepAt(states, events, n - 1);
      StepReserves(states[n - 1], events[n - 1], id);
      if GotSession(states[n - 1].runs[id].phase) {
        ReservedFor(states, events, n - 1, id);
      } else {
        assert Reserves(states, events, n - 1, id);
      }
    }
  }

  // ---------------------------------------------------------------- cancellation

  predicate CancelOk(run: Run) {
    run.cancellable <==> Started(run.phase)
  }

  lemma StepCancels(s: Sys, e: Event, id: string)
    requires Enabled(s, e) && id in Happen(s, e).runs && (id in s.runs ==> CancelOk(s.runs[id]))
    ensures CancelOk(Happen(s, e).runs[id])
    ensures Happen(s, e).runs[id].cancelled <==> (id in s.runs && s.runs[id].cancelled) || Cancels([s, Happen(s, e)], [e], 0, id)
  {
    if e.Advance? && e.id == id {
      hide NextRuntime, NextRun;
      StartedOn(s.runs[id], Verdict(s.runtimes[s.runs[id].rt]), s.pending < s.maxPending, CtxDone(s, s.runs[id]), e.choice);
    } else {
      hide Step;
      OthersCancel(s, e, id);
    }
  }

  lemma StartedOn(run: Run, v: Option<Reason>, room: bool, ctxDone: bool, c: Choice)
    requires CancelOk(run)
    ensures CancelOk(NextRun(run, v, room, ctxDone, c)) && NextRun(run, v, room, ctxDone, c).cancelled == run.cancelled
  {
    hide Verdict, TokenMove, GateMove, SlotMove, Booked, Moved, Told, Came, Normal, Override;
  }

  lemma OthersCancel(s: Sys, e: Event, id: string)
    requires Enabled(s, e) && !(e.Advance? && e.id == id) && id in Happen(s, e).runs && (id in s.runs ==> CancelOk(s.runs[id]))
    ensures CancelOk(Happen(s, e).runs[id])
    ensures Happen(s, e).runs[id].cancelled <==> (id in s.runs && s.runs[id].cancelled) || Cancels([s, Happen(s, e)], [e], 0, id)
  {
    hide Stepped, NextRuntime;
  }

  /** The context of a run is cancelled exactly when somebody cancelled the run after its execution had
      begun. */
  lemma {:induction false} CancelledBy(states: seq<Sys>, events: seq<Event>, n: nat, id: string)
    requires IsRun(states, events) && n < |states| && id in states[n].runs
    ensures CancelOk(states[n].runs[id])
    ensures states[n].runs[id].cancelled <==> exists i :: 0 <= i < n && Cancels(states, events, i, id)
  {
    if n > 0 {
      assert StepAt(states, events, n - 1);
      var s, e := states[n - 1], events[n - 1];
      if id in s.runs { CancelledBy(states, events, n - 1, id); } else { NotYet(states, events, n - 1, id); }
      StepCancels(s, e, id);
      assert Cancels([s, states[n]], [e], 0, id) <==> Cancels(states, events, n - 1, id);
    }
  }

  lemma {:induction false} NotYet(states: seq<Sys>, events: seq<Event>, n: nat, id: string)
    requires IsRun(states, events) && n < |states| && id !in states[n].runs
    ensures forall i :: 0 <= i <= n ==> id !in states[i].runs
  {
    if n > 0 {
      assert StepAt(states, events, n - 1);
      assert id !in states[n - 1].runs by {
        if id in states[n - 1].runs { StaysKnown(states[n - 1], events[n - 1], id); }
      }
      NotYet(states, events, n - 1, id);
    }
  }

  lemma StaysKnown(s: Sys, e: Event, id: string)
    requires Enabled(s, e) && id in s.runs
    ensures id in Happen(s, e).runs && Happen(s, e).runs[id].rt == s.runs[id].rt
  {}

  /** The host is gone exactly when it was closed and then cancelled its runs; it is closed exactly when
      somebody closed it. */
  lemma {:induction false} HostBy(states: seq<Sys>, events: seq<Event>, n: nat)
    requires IsRun(states, events) && n < |states|
    ensures states[n].closed <==> exists i :: 0 <= i < n && events[i].Close?
    ensures states[n].hostDone <==> exists i :: 0 <= i < n && events[i].CancelHost?
  {
    if n > 0 {
      assert StepAt(states, events, n - 1);
      HostBy(states, events, n - 1);
      StepHost(states[n - 1], events[n - 1]);
    }
  }

  lemma StepHost(s: Sys, e: Event)
    requires Enabled(s, e)
    ensures Happen(s, e).closed <==> s.closed || e.Close?
    ensures Happen(s, e).hostDone <==> s.hostDone || e.CancelHost?
  {}

  /** A runtime is retired exactly when somebody retired it while no run was active on it, and bound as
      the last BindSession left it. */
  ghost predicate Retires(states: seq<Sys>, events: seq<Event>, i: nat, k: int) {
    i < |events| && i < |states| && events[i] == Retire(k) && k in states[i].runtimes && states[i].runtimes[k].active.None?
  }

  function BoundBy(events: seq<Event>, k: int): bool {
    events != [] &&
    var last := events[|events| - 1];
    if last.BindSession? && last.k == k then last.bound else BoundBy(events[..|events| - 1], k)
  }

  lemma StepRuntime(s: Sys, e: Event, k: int)
    requires Enabled(s, e)
    ensures k in s.runtimes ==> k in Happen(s, e).runtimes
    ensures k in Happen(s, e).runtimes ==>
      var rt := Happen(s, e).runtimes[k];
      && (rt.retired <==> (k in s.runtimes && s.runtimes[k].retired) || Retires([s, Happen(s, e)], [e], 0, k))
      && (k in s.runtimes ==> rt.bound == if e.BindSession? && e.k == k then e.bound else s.runtimes[k].bound)
      && (k !in s.runtimes ==> !rt.bound && !e.BindSession?)
  {}

  lemma {:induction false} RetiredBy(states: seq<Sys>, events: seq<Event>, n: nat, k: int)
    requires IsRun(states, events) && n < |states|
    ensures k in states[n].runtimes ==>
      && (states[n].runtimes[k].retired <==> exists i :: 0 <= i < n && Retires(states, events, i, k))
      && states[n].runtimes[k].bound == BoundBy(events[..n], k)
    ensures k !in states[n].runtimes ==> !BoundBy(events[..n], k) && forall i :: 0 <= i < n ==> !Retires(states, events, i, k)
  {
    if n > 0 {
      assert StepAt(states, events, n - 1);
      RetiredBy(states, events, n - 1, k);
      StepRuntime(states[n - 1], events[n - 1], k);
      assert events[..n][..n - 1] == events[..n - 1];
      assert Retires([states[n - 1], states[n]], [events[n - 1]], 0, k) <==> Retires(states, events, n - 1, k);
    }
  }

  /** A run exists exactly when it was submitted to an open host for a session registered then, whose
      runtime it keeps. */
  ghost predicate Submits(states: seq<Sys>, events: seq<Event>, i: nat, id: string, rt: int) {
    && i < |events| && i < |states| && events[i].Submit? && events[i].id == id && !states[i].closed
    && events[i].sessionId in states[i].registry && states[i].registry[events[i].sessionId] == rt
  }

  lemma StepSubmits(s: Sys, e: Event, id: string)
    requires Enabled(s, e)
    ensures id in Happen(s, e).runs <==> id in s.runs || exists rt :: Submits([s, Happen(s, e)], [e], 0, id, rt)
    ensures id in s.runs ==> Happen(s, e).runs[id].rt == s.runs[id].rt
    ensures id !in s.runs && id in Happen(s, e).runs ==> Submits([s, Happen(s, e)], [e], 0, id, Happen(s, e).runs[id].rt)
  {
    if e.Submit? && e.id == id && !s.closed && e.sessionId in s.registry {
      assert Submits([s, Happen(s, e)], [e], 0, id, s.registry[e.sessionId]);
    }
  }

  lemma {:induction false} SubmittedBy(states: seq<Sys>, events: seq<Event>, n: nat, id: string)
    requires IsRun(states, events) && n < |states|
    ensures id in states[n].runs ==> exists i :: 0 <= i < n && Submits(states, events, i, id, states[n].runs[id].rt)
    ensures (exists i, rt :: 0 <= i < n && Submits(states, events, i, id, rt)) ==> id in states[n].runs
  {
    if n > 0 {
      assert StepAt(states, events, n - 1);
      SubmittedBy(states, events, n - 1, id);
      StepSubmits(states[n - 1], events[n - 1], id);
      if id in states[n].runs && id !in states[n - 1].runs {
        assert Submits(states, events, n - 1, id, states[n].runs[id].rt);
      }
      if i, rt :| 0 <= i < n && Submits(states, events, i, id, rt) {
        assert i == n - 1 ==> Submits([states[n - 1], states[n]], [events[n - 1]], 0, id, rt);
      }
    }
  }

  /** The session got this runtime at step i: the host was open, the name free and the runtime not retired. */
  ghost predicate Registers(states: seq<Sys>, events: seq<Event>, i: nat, session: string, k: int) {
    && i < |events| && i < |states| && events[i].Register? && events[i].sessionId == session && events[i].k == k
    && !states[i].closed && session !in states[i].registry && !(k in states[i].runtimes && states[i].runtimes[k].retired)
  }

  lemma StepRegisters(s: Sys, e: Event, session: string, k: int)
    requires Enabled(s, e)
    ensures (session in Happen(s, e).registry && Happen(s, e).registry[session] == k)
      <==> Registers([s, Happen(s, e)], [e], 0, session, k)
           || (session in s.registry && s.registry[session] == k && e != Remove(session))
  {}

  /** A session is found under a name exactly from its registration to its removal. */
  lemma {:induction false} RegisteredBy(states: seq<Sys>, events: seq<Event>, n: nat, session: string, k: int)
    requires IsRun(states, events) && n < |states|
    ensures (session in states[n].registry && states[n].registry[session] == k)
      <==> exists i :: 0 <= i < n && Registers(states, events, i, session, k) && forall j :: i < j < n ==> events[j] != Remove(session)
  {
    if n > 0 {
      assert StepAt(states, events, n - 1);
      RegisteredBy(states, events, n - 1, session, k);
      var s, e := states[n - 1], events[n - 1];
      StepRegisters(s, e, session, k);
      assert Registers([s, states[n]], [e], 0, session, k) <==> Registers(states, events, n - 1, session, k);
      if i :| 0 <= i < n && Registers(states, events, i, session, k) && forall j :: i < j < n ==> events[j] != Remove(session) {
        if i < n - 1 { assert e != Remove(session); }
      }
    }
  }

  /** What clients see before the end: queued until the body is entered; after that running, or waiting as
      the body last said. */
  predicate ShownOk(run: Run) {
    Ended(run.phase) || (if run.phase.Body? || run.returned.Some? then run.state.Running? || run.state.WaitingInput? || run.state.WaitingCapability?
                         else run.state.Queued?)
  }

  lemma ShownNext(run: Run, v: Option<Reason>, room: bool, ctxDone: bool, c: Choice)
    requires ShownOk(run) && (run.phase.Body? ==> c.Returns?)
    ensures ShownOk(NextRun(run, v, room, ctxDone, c))
  {
    hide Booked, TokenMove, GateMove, SlotMove, Normal, Told;
  }

  lemma ShownStep(s: Sys, e: Event, id: string)
    requires Enabled(s, e) && id in Happen(s, e).runs && (id in s.runs ==> ShownOk(s.runs[id]))
    ensures ShownOk(Happen(s, e).runs[id])
    ensures e.Mark? && e.id == id ==> Happen(s, e).runs[id].state == e.state
  {
    if e.Advance? && e.id == id {
      hide NextRun, ShownOk;
      ShownNext(s.runs[id], Verdict(s.runtimes[s.runs[id].rt]), s.pending < s.maxPending, CtxDone(s, s.runs[id]), e.choice);
    }
  }

  lemma {:induction false} StateShown(states: seq<Sys>, events: seq<Event>, n: nat, id: string)
    requires IsRun(states, events) && n < |states| && id in states[n].runs
    ensures ShownOk(states[n].runs[id])
  {
    if n > 0 {
      assert StepAt(states, events, n - 1);
      if id in states[n - 1].runs { StateShown(states, events, n - 1, id); }
      ShownStep(states[n - 1], events[n - 1], id);
    }
  }

  // ---------------------------------------------------------------- how a run ends

  /** The body returned res at step i, with a context that was done or was not. */
  ghost predicate Answers(states: seq<Sys>, events: seq<Event>, i: nat, id: string, res: Result) {
    StepsFrom(states, events, i, id, Body) && events[i].choice == Returns(res)
  }

  /** What the run.finished event says. */
  predicate AnnouncedFor(run: Run, res: Result, done: bool) {
    run.announced == Some(if done then Cancelled else res.state)
  }

  /** What the terminal record and every waiter get. */
  predicate RecordedFor(run: Run, res: Result, done: bool) {
    && run.result.Some? && run.state == run.result.value.state && run.result.value.persisted == res.persisted
    && (match res.err
        case Some(OtherFault) => run.state == Failed && run.result.value.err == Some(OtherFault)
        case Some(ContextEnded) => run.state == Cancelled && run.result.value.err == Some(ContextEnded)
        case None =>
          if done then run.state == Cancelled && run.result.value.err == Some(ContextEnded)
          else
            && run.result.value.err == None
            && run.state == if res.state == Cancelled then Cancelled else if res.state == Failed then Failed else Completed)
  }

  /** How far what the body returned has come. */
  predicate Under(run: Run, res: Result, done: bool) {
    AnnouncedFor(run, res, done) &&
    match run.phase
    case Closing(r, _) => r == (if done then Result(Cancelled, if res.err.None? then Some(ContextEnded) else res.err, res.persisted) else res)
    case Journaled(r, _) => RecordedFor(run.(result := Some(r), state := r.state), res, done)
    case Cleared(r, _) => RecordedFor(run.(result := Some(r), state := r.state), res, done)
    case _ => Ended(run.phase) && RecordedFor(run, res, done)
  }

  lemma BodyReturns(s: Sys, id: string, res: Result)
    requires CanStep(s, id, Returns(res)) && s.runs[id].phase.Body?
    ensures id in Step(s, id, Returns(res)).runs && Under(Step(s, id, Returns(res)).runs[id], res, CtxDone(s, s.runs[id]))
  {}

  lemma UnderNext(run: Run, v: Option<Reason>, room: bool, ctxDone: bool, c: Choice, res: Result, done: bool)
    requires Under(run, res, done)
    ensures Under(NextRun(run, v, room, ctxDone, c), res, done)
  {
    hide Booked, TokenMove, GateMove, SlotMove, RecordedFor;
    if run.phase.Closing? { Normalised(run, run.phase.res, res, done); }
    FinishKeeps(run, res, done);
  }

  /** The state under which the outcome of a body is recorded. */
  lemma Normalised(run: Run, r: Result, res: Result, done: bool)
    requires r == if done then Result(Cancelled, if res.err.None? then Some(ContextEnded) else res.err, res.persisted) else res
    ensures RecordedFor(run.(result := Some(Normal(r)), state := Normal(r).state), res, done)
  {}

  /** A result is recorded for whatever else changes in the run. */
  lemma FinishKeeps(run: Run, res: Result, done: bool)
    ensures forall other: Run :: other.result == run.result && other.state == run.state ==>
      (RecordedFor(other, res, done) <==> RecordedFor(run, res, done))
    ensures forall r: Result, other: Run ::
      RecordedFor(run.(result := Some(r), state := r.state), res, done) && other.result == Some(r) && other.state == r.state ==>
        RecordedFor(other, res, done)
    ensures forall r: Result, other: Run ::
      RecordedFor(run.(result := Some(r), state := r.state), res, done) ==> RecordedFor(other.(result := Some(r), state := r.state), res, done)
  {}

  lemma UnderStep(s: Sys, e: Event, id: string, res: Result, done: bool)
    requires Enabled(s, e) && id in s.runs && Under(s.runs[id], res, done)
    ensures id in Happen(s, e).runs && Under(Happen(s, e).runs[id], res, done)
  {
    hide Under, Same, NextRun;
    if e.Advance? && e.id == id {
      UnderNext(s.runs[id], Verdict(s.runtimes[s.runs[id].rt]), s.pending < s.maxPending, CtxDone(s, s.runs[id]), e.choice, res, done);
    } else {
      OthersLeave(s, e, id);
      SameUnder(s.runs[id], Happen(s, e).runs[id], res, done);
    }
  }

  predicate Same(a: Run, b: Run) {
    a.phase == b.phase && a.announced == b.announced && a.result == b.result && (a.phase.Body? || a.state == b.state)
  }

  lemma OthersLeave(s: Sys, e: Event, id: string)
    requires Enabled(s, e) && id in s.runs && !(e.Advance? && e.id == id)
    ensures id in Happen(s, e).runs && Same(s.runs[id], Happen(s, e).runs[id])
  {}

  lemma SameUnder(a: Run, b: Run, res: Result, done: bool)
    requires Same(a, b) && Under(a, res, done)
    ensures Under(b, res, done)
  {}

  /** What a body returned is announced and recorded so: as cancelled when the context was done, whatever
      it returned, except that an error of its own is recorded as a failure; otherwise as it was
      returned, with the error deciding the record and an unfinished state counting as completed. */
  lemma {:induction false} EndsAsAnswered(states: seq<Sys>, events: seq<Event>, i: nat, n: nat, id: string, res: Result)
    requires IsRun(states, events) && i < n < |states| && Answers(states, events, i, id, res)
    ensures id in states[n].runs && Under(states[n].runs[id], res, CtxDone(states[i], states[i].runs[id]))
    ensures Ended(states[n].runs[id].phase) ==>
      && AnnouncedFor(states[n].runs[id], res, CtxDone(states[i], states[i].runs[id]))
      && RecordedFor(states[n].runs[id], res, CtxDone(states[i], states[i].runs[id]))
  {
    assert StepAt(states, events, n - 1);
    if i == n - 1 {
      BodyReturns(states[i], id, res);
    } else {
      EndsAsAnswered(states, events, i, n - 1, id, res);
      UnderStep(states[n - 1], events[n - 1], id, res, CtxDone(states[i], states[i].runs[id]));
    }
  }

  /** A run that was cancelled before its body returned is announced as cancelled and recorded as
      cancelled, even if its body completed; with an error of its own it is recorded as failed. */
  lemma {:induction false} CancelledEndsSo(states: seq<Sys>, events: seq<Event>, j: nat, i: nat, n: nat, id: string, res: Result)
    requires IsRun(states, events) && j < i < n < |states| && Cancels(states, events, j, id) && Answers(states, events, i, id, res)
    requires id in states[n].runs && Ended(states[n].runs[id].phase)
    ensures var run := states[n].runs[id];
      run.announced == Some(Cancelled) && run.state == if res.err == Some(OtherFault) then Failed else Cancelled
  {
    CancelledBy(states, events, i, id);
    EndsAsAnswered(states, events, i, n, id, res);
  }

  /** A run that leaves before its body. */
  predicate LeavingEarly(run: Run) {
    && run.returned.None?
    && (match run.phase
        case Closing(r, _) => r == Result(Cancelled, Some(ContextEnded), false) && run.announced == Some(Cancelled)
        case Journaled(r, _) => r == Result(Cancelled, Some(ContextEnded), false) && run.announced == Some(Cancelled)
        case Cleared(r, _) => r == Result(Cancelled, Some(ContextEnded), false) && run.announced == Some(Cancelled)
        case _ =>
          Ended(run.phase) ==>
            run.announced == Some(Cancelled) && run.state == Cancelled && run.result == Some(Result(Cancelled, Some(ContextEnded), false)))
  }

  lemma EarlyNext(run: Run, v: Option<Reason>, room: bool, ctxDone: bool, c: Choice)
    requires LeavingEarly(run)
    ensures LeavingEarly(NextRun(run, v, room, ctxDone, c)) || (run.phase.Body? && c.Returns?)
  {}

  lemma EarlyStep(s: Sys, e: Event, id: string)
    requires Enabled(s, e) && id in Happen(s, e).runs && (id in s.runs ==> LeavingEarly(s.runs[id]))
    ensures LeavingEarly(Happen(s, e).runs[id]) || (id in s.runs && s.runs[id].phase.Body? && e.Advance? && e.id == id && e.choice.Returns?)
  {
    if e.Advance? && e.id == id {
      EarlyNext(s.runs[id], Verdict(s.runtimes[s.runs[id].rt]), s.pending < s.maxPending, CtxDone(s, s.runs[id]), e.choice);
    }
  }

  /** Every run that ended returned from its body, or left before it and is cancelled in every respect. */
  lemma {:induction false} EndsOneWay(states: seq<Sys>, events: seq<Event>, n: nat, id: string)
    requires IsRun(states, events) && n < |states| && id in states[n].runs
    ensures LeavingEarly(states[n].runs[id]) || exists i, res :: 0 <= i < n && Answers(states, events, i, id, res)
  {
    if n > 0 {
      assert StepAt(states, events, n - 1);
      var s, e := states[n - 1], events[n - 1];
      if id in s.runs {
        EndsOneWay(states, events, n - 1, id);
        if LeavingEarly(s.runs[id]) {
          EarlyStep(s, e, id);
          if !LeavingEarly(states[n].runs[id]) { assert Answers(states, events, n - 1, id, e.choice.res); }
        }
      } else {
        EarlyStep(s, e, id);
      }
    }
  }
}

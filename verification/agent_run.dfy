/** AgentRun and SessionRuntime (ai-runtime/agent/run.go, runtime.go) as the objects they are: what
    each lock section does to the fields is the step of RunModel it stands for. */
module AgentRuns {
  import opened Events
  import opened RunModel

  class AgentRun {
    const id: string
    const sessionId: string
    var state: RunState
    var done: bool
    var result: Option<Result>
    var cancel: bool
    var ctxDone: bool

    constructor (id: string, sessionId: string)
      ensures this.id == id && this.sessionId == sessionId
      ensures Shows(NewRun(0))
    {
      this.id, this.sessionId := id, sessionId;
      state, done, result, cancel, ctxDone := Queued, false, None, false, false;
    }

    /** The fields show the run of the model. */
    ghost predicate Shows(run: Run)
      reads this
    {
      && state == run.state && result == run.result && done == (run.closes > 0)
      && cancel == run.cancellable && ctxDone == run.cancelled
    }

    method Transition(next: RunState, ghost run: Run)
      requires Shows(run)
      modifies this`state, this`done
      ensures Shows(RunModel.Transition(run, next))
    {
      if state == next {
        return;
      }
      state := next;
      match next {
        case Completed => done := true;
        case Failed => done := true;
        case Cancelled => done := true;
        case _ =>
      }
    }

    method Finish(res: Result, ghost run: Run)
      requires Shows(run)
      modifies this`state, this`done, this`result
      ensures Shows(RunModel.Finish(run, res))
    {
      result := Some(res);
      Transition(res.state, run.(result := Some(res)));
    }

    /** The state now, with the error and the persistence of the recorded result. */
    method Snapshot() returns (res: Result)
      ensures res.state == state
      ensures result.Some? ==> res.err == result.value.err && res.persisted == result.value.persisted
      ensures result.None? ==> res.err.None? && !res.persisted
    {
      res := if result.Some? then result.value.(state := state) else Result(state, None, false);
    }

    method SetCancel(ghost run: Run)
      requires Shows(run)
      modifies this`cancel
      ensures Shows(run.(cancellable := true))
    {
      cancel := true;
    }

    method Cancel(ghost run: Run) returns (sent: bool)
      requires Shows(run)
      modifies this`ctxDone
      ensures sent == run.cancellable && Shows(CancelOf(run))
    {
      if !cancel {
        return false;
      }
      ctxDone := true;
      sent := true;
    }
  }

  class SessionRuntime {
    const id: string
    var bound: bool
    var active: AgentRun?
    var archived: bool
    var retired: bool
    var gate: nat

    constructor (id: string, bound: bool)
      ensures this.id == id && Rt() == Runtime(bound, false, false, None, 0)
    {
      this.id, this.bound := id, bound;
      active, archived, retired, gate := null, false, false, 0;
    }

    function Rt(): Runtime
      reads this
    {
      Runtime(bound, archived, retired, if active == null then None else Some(active.id), gate)
    }

    /** Run ids are unique. */
    ghost predicate Sole(run: AgentRun)
      reads this
    {
      active != null && active.id == run.id ==> active == run
    }

    method ReserveRun(run: AgentRun) returns (refusal: Option<Reason>)
      modifies this`active
      ensures refusal == Verdict(old(Rt()))
      ensures Rt().active == NextActive(old(Rt()).active, Tokened, refusal, run.id)
      ensures refusal.None? ==> active == run
    {
      if archived {
        return Some(SessionArchived);
      }
      if retired {
        return Some(SessionRetired);
      }
      if active != null {
        return Some(RunActive);
      }
      if !bound {
        return Some(SessionNotBound);
      }
      active := run;
      refusal := None;
    }

    method ReleaseRunReservation(run: AgentRun)
      requires Sole(run)
      modifies this`active
      ensures forall why :: Rt().active == NextActive(old(Rt()).active, Undoing(why), None, run.id)
    {
      if active == run { active := null; }
    }

    method Retire() returns (ok: bool)
      modifies this`retired
      ensures ok == (active == null) && retired == (old(retired) || ok)
    {
      if active != null {
        return false;
      }
      retired := true;
      ok := true;
    }

    /** marked: the store has the record. The commit comes after the mark, and a failed one takes it back. */
    method Archive(commit: Commit, marked: bool) returns (ok: bool)
      modifies this`archived
      ensures ok == (active == null && Answer(commit, marked))
      ensures archived == if active == null then Answer(commit, marked) else old(archived)
    {
      if active != null {
        return false;
      }
      archived := true;
      if commit.NoCommit? {
        return true;
      }
      ok := Answer(commit, marked);
      if !ok { archived := false; }
    }

    /** AcquireRun where it does not have to wait. */
    method TryGate() returns (ok: bool)
      modifies this`gate
      ensures ok == (old(gate) == 0) && gate == Moved(old(gate), if ok then TakeOne else Keep)
    {
      if gate != 0 {
        return false;
      }
      gate := 1;
      ok := true;
    }

    method ReleaseGate()
      modifies this`gate
      ensures gate == Moved(old(gate), GiveOne)
    {
      if gate > 0 { gate := gate - 1; }
    }

    /** The shared end of every run: the record that goes to the journal is the normalised result;
        the session is free before done is closed. */
    method FinalizeRun(run: AgentRun, res: Result, ghost model: Run) returns (final: Result, record: RunState)
      requires Sole(run) && run.Shows(model)
      modifies this`active, run`state, run`done, run`result
      ensures final == Normal(res) && record == final.state && Terminal(record)
      ensures forall held :: Rt().active == NextActive(old(Rt()).active, Journaled(final, held), None, run.id)
      ensures run.Shows(RunModel.Finish(model, final))
    {
      final := res;
      if res.err.Some? {
        var state := Failed;
        if res.err.value.ContextEnded? { state := Cancelled; }
        final := Result(state, res.err, res.persisted);
      } else if res.state != Completed && res.state != Failed && res.state != Cancelled {
        final := res.(state := Completed);
      }
      record := final.state;
      if active == run { active := null; }
      run.Finish(final, model);
    }
  }
}

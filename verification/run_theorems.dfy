/** Safety and progress of background runs over every interleaving. */
module RunTheorems {
  import opened Events
  import opened RunModel
  import opened RunInvariant

  // ---------------------------------------------------------------- exclusion

  lemma SoleMember(b: set<string>, x: string, y: string)
    requires |b| <= 1 && x in b && y in b
    ensures x == y
  {
    if x != y { Subset({x, y}, b); }
  }

  /** A session has at most one run between reservation and release, and at most one inside its gate;
      slots and pending tokens out are exactly the runs that hold them. */
  lemma Exclusion(states: seq<Sys>, events: seq<Event>, n: nat, x: string, y: string)
    requires IsRun(states, events) && n < |states|
    requires x in states[n].runs && y in states[n].runs && states[n].runs[x].rt == states[n].runs[y].rt
    ensures Holds(states[n].runs[x].phase).active && Holds(states[n].runs[y].phase).active ==> x == y
    ensures Holds(states[n].runs[x].phase).gate && Holds(states[n].runs[y].phase).gate ==> x == y
    ensures states[n].pending == |Owing(states[n].runs)| <= states[n].maxPending
    ensures states[n].slots == |InSlot(states[n].runs)| <= states[n].maxRuns
  {
    RunInv(states, events, n);
    var s := states[n];
    assert RunOk(s.runs[x]) && RunOk(s.runs[y]);
    var gate := InGate(s.runs, s.runs[x].rt);
    if x in gate && y in gate { SoleMember(gate, x, y); }
  }

  lemma RunAt(states: seq<Sys>, events: seq<Event>, n: nat, id: string)
    requires IsRun(states, events) && n < |states| && id in states[n].runs
    ensures var s := states[n];
      RunOk(s.runs[id]) && s.runs[id].rt in s.runtimes
      && (Holds(s.runs[id].phase).active <==> s.runtimes[s.runs[id].rt].active == Some(id))
  {
    RunInv(states, events, n);
  }

  lemma SettledAtExit(run: Run)
    requires LedgersOk(run) && (run.phase.Rejected? || run.phase.Done?)
    ensures run.token.took == run.token.gave <= 1 && run.gate.took == run.gate.gave <= 1 && run.slot.took == run.slot.gave <= 1
    ensures run.phase.Done? ==> run.token.took == 1
  {
    hide BeforeToken, BeforeGate, BeforeSlot, Settled;
    Balanced(run.token);
    Balanced(run.gate);
    Balanced(run.slot);
  }

  lemma Balanced(l: Ledger)
    ensures Settled(l, false) ==> l.took == l.gave && l.gave <= 1
  {}

  /** On every exit each token that was taken was given back exactly once; an accepted run took and
      gave exactly one pending token. */
  lemma GivenBackOnce(states: seq<Sys>, events: seq<Event>, n: nat, id: string)
    requires IsRun(states, events) && n < |states| && id in states[n].runs
    requires states[n].runs[id].phase.Rejected? || states[n].runs[id].phase.Done?
    ensures var run := states[n].runs[id];
      && run.token.took == run.token.gave <= 1
      && run.gate.took == run.gate.gave <= 1
      && run.slot.took == run.slot.gave <= 1
      && (run.phase.Done? ==> run.token.took == 1)
  {
    RunAt(states, events, n, id);
    SettledAtExit(states[n].runs[id]);
  }

  // ---------------------------------------------------------------- the end of a run

  lemma EndedIsIdle(p: Phase)
    ensures Ended(p) ==> !Holds(p).active
  {}

  /** When done is closed the terminal record was attempted, the session is free of the run, and
      the result is in place; and done is closed in no other case. */
  lemma DoneMeans(states: seq<Sys>, events: seq<Event>, n: nat, id: string)
    requires IsRun(states, events) && n < |states| && id in states[n].runs
    ensures var run := states[n].runs[id];
      && run.closes <= 1
      && (run.closes == 1 <==> Terminal(run.state))
      && (run.closes == 1 ==>
            && run.attempted && run.rt in states[n].runtimes && states[n].runtimes[run.rt].active != Some(id)
            && run.result.Some? && run.result.value.state == run.state)
  {
    RunAt(states, events, n, id);
    EndedIsIdle(states[n].runs[id].phase);
  }

  /** What a waiter on done sees. */
  predicate SameEnd(a: Run, b: Run) {
    Ended(a.phase) && Ended(b.phase) && a.state == b.state && a.result == b.result && a.closes == b.closes
  }

  lemma EndedRunStays(run: Run, v: Option<Reason>, room: bool, ctxDone: bool, c: Choice)
    requires Ended(run.phase)
    ensures SameEnd(run, NextRun(run, v, room, ctxDone, c))
  {}

  /** A run that has ended keeps its state, its result and its one closing of done. */
  lemma EndedStays(s: Sys, e: Event, id: string)
    requires Enabled(s, e) && id in s.runs && Ended(s.runs[id].phase)
    ensures id in Happen(s, e).runs && SameEnd(s.runs[id], Happen(s, e).runs[id])
  {
    if e.Advance? && e.id == id {
      EndedRunStays(s.runs[id], Verdict(s.runtimes[s.runs[id].rt]), s.pending < s.maxPending, CtxDone(s, s.runs[id]), e.choice);
    }
  }

  lemma {:induction false} EndedForever(states: seq<Sys>, events: seq<Event>, n: nat, m: nat, id: string)
    requires IsRun(states, events) && n <= m < |states| && id in states[n].runs && Ended(states[n].runs[id].phase)
    ensures id in states[m].runs && SameEnd(states[n].runs[id], states[m].runs[id])
  {
    if n < m {
      EndedForever(states, events, n, m - 1, id);
      assert StepAt(states, events, m - 1);
      EndedStays(states[m - 1], events[m - 1], id);
    }
  }

  /** No run is active on a retired runtime, now or later: retirement and reservation share a lock. */
  lemma {:induction false} RetiredStaysIdle(states: seq<Sys>, events: seq<Event>, n: nat, m: nat, k: int)
    requires IsRun(states, events) && n <= m < |states| && k in states[n].runtimes && states[n].runtimes[k].retired
    ensures k in states[m].runtimes && states[m].runtimes[k].retired && states[m].runtimes[k].active.None?
    ensures forall id :: id in states[m].runs && states[m].runs[id].rt == k ==> !Holds(states[m].runs[id].phase).active
  {
    if n < m {
      RetiredStaysIdle(states, events, n, m - 1, k);
      assert StepAt(states, events, m - 1);
      RetiredStays(states[m - 1], events[m - 1], k);
    }
    RunInv(states, events, m);
  }

  lemma RetiredStays(s: Sys, e: Event, k: int)
    requires Enabled(s, e) && k in s.runtimes && s.runtimes[k].retired
    ensures k in Happen(s, e).runtimes && Happen(s, e).runtimes[k].retired
  {}

  // ---------------------------------------------------------------- archived sessions

  /** The application archives with the commit of the store; it restores a mark before it registers. */
  ghost predicate OfApplication(events: seq<Event>) {
    forall n :: 0 <= n < |events| && events[n].Archive? ==> events[n].commit.MarkStore?
  }

  lemma ArchivedIdleStep(s: Sys, e: Event, k: int)
    requires Enabled(s, e) && k in Happen(s, e).runtimes
    requires k in s.runtimes && s.runtimes[k].archived ==> s.runtimes[k].active.None?
    ensures Happen(s, e).runtimes[k].archived ==> Happen(s, e).runtimes[k].active.None?
  {}

  /** No run is active on an archived runtime, whoever archived it: archiving and reservation share a
      lock. */
  lemma {:induction false} ArchivedIdle(states: seq<Sys>, events: seq<Event>, n: nat, k: int)
    requires IsRun(states, events) && n < |states| && k in states[n].runtimes && states[n].runtimes[k].archived
    ensures states[n].runtimes[k].active.None?
    ensures forall id :: id in states[n].runs && states[n].runs[id].rt == k ==> !Holds(states[n].runs[id].phase).active
  {
    RunInv(states, events, n);
    hide Happen, Enabled, Holds;
    if n > 0 {
      assert StepAt(states, events, n - 1);
      if k in states[n - 1].runtimes && states[n - 1].runtimes[k].archived { ArchivedIdle(states, events, n - 1, k); }
      ArchivedIdleStep(states[n - 1], events[n - 1], k);
    }
  }

  /** A runtime that was made for an archived session and not told so, and no Archive since. */
  ghost predicate LeftOpen(states: seq<Sys>, events: seq<Event>, n: nat, k: int)
    requires |states| == |events| + 1 && n < |states|
  {
    n > 0 &&
    var s, e := states[n - 1], events[n - 1];
    || (e.Register? && e.k == k && Accepts(s, e.sessionId, k) && k !in s.runtimes && e.origin == Origin(true, false))
    || (LeftOpen(states, events, n - 1, k) && !(e.Archive? && e.k == k && k in s.runtimes && s.runtimes[k].active.None?))
  }

  /** Under the application a runtime is read-only if and only if its store says archived; the one
      exception is a runtime that was registered on such a store without restoring the mark. */
  lemma {:induction false} ArchivedIsMarked(states: seq<Sys>, events: seq<Event>, n: nat, k: int)
    requires IsRun(states, events) && OfApplication(events) && n < |states|
    ensures k in states[n].runtimes ==>
      && (states[n].runtimes[k].archived ==> k in states[n].marked)
      && (k in states[n].marked && !states[n].runtimes[k].archived <==> LeftOpen(states, events, n, k))
    ensures k !in states[n].runtimes ==> k !in states[n].marked && !LeftOpen(states, events, n, k)
  {
    if n > 0 {
      assert StepAt(states, events, n - 1);
      ArchivedIsMarked(states, events, n - 1, k);
      MarkStep(states[n - 1], events[n - 1], k);
    }
  }

  /** So no run is active on a session whose store says archived, but for that exception. */
  lemma MarkedIdle(states: seq<Sys>, events: seq<Event>, n: nat, k: int)
    requires IsRun(states, events) && OfApplication(events) && n < |states|
    requires k in states[n].runtimes && k in states[n].marked && !LeftOpen(states, events, n, k)
    ensures states[n].runtimes[k].archived && states[n].runtimes[k].active.None?
  {
    ArchivedIsMarked(states, events, n, k);
    ArchivedIdle(states, events, n, k);
  }

  /** How the marks of a runtime and of its store change. */
  lemma MarkStep(s: Sys, e: Event, k: int)
    requires Enabled(s, e) && (e.Archive? ==> e.commit.MarkStore?)
    ensures var t := Happen(s, e);
      if e.Register? && e.k == k && Accepts(s, e.sessionId, k) && k !in s.runtimes then
        k in t.runtimes && (k in t.marked <==> e.origin.marked)
        && (t.runtimes[k].archived <==> e.origin.marked && e.origin.restored)
      else
        && (k in t.runtimes <==> k in s.runtimes)
        && (k in s.runtimes ==>
              if e.Archive? && e.k == k && s.runtimes[k].active.None?
              then (t.runtimes[k].archived <==> k in t.marked) && (k in s.marked ==> k in t.marked)
              else (k in t.marked <==> k in s.marked) && t.runtimes[k].archived == s.runtimes[k].archived)
        && (k !in s.runtimes ==> (k in t.marked <==> k in s.marked))
  {}

  ghost predicate AnsweredYes(states: seq<Sys>, events: seq<Event>, k: int, i: nat)
    requires |states| == |events| + 1 && i < |events|
  {
    events[i].Archive? && events[i].k == k ==> Answer(events[i].commit, k in states[i].marked)
  }

  lemma ArchivedStays(s: Sys, e: Event, k: int)
    requires Enabled(s, e) && k in s.runtimes && s.runtimes[k].archived && s.runtimes[k].active.None?
    ensures k in Happen(s, e).runtimes
    ensures Happen(s, e).runtimes[k].archived <==> (e.Archive? && e.k == k ==> Answer(e.commit, k in s.marked))
  {}

  /** Archived through a stretch of an execution, if and only if every Archive of it meanwhile was
      answered with success. */
  lemma {:induction false} ArchivedThroughout(states: seq<Sys>, events: seq<Event>, n: nat, m: nat, k: int)
    requires IsRun(states, events) && n <= m < |states| && k in states[n].runtimes && states[n].runtimes[k].archived
    ensures (forall i :: n <= i <= m ==> k in states[i].runtimes && states[i].runtimes[k].archived)
      <==> (forall i :: n <= i < m ==> AnsweredYes(states, events, k, i))
  {
    if n < m {
      ArchivedThroughout(states, events, n, m - 1, k);
      if k in states[m - 1].runtimes && states[m - 1].runtimes[k].archived {
        ArchivedIdle(states, events, m - 1, k);
        assert StepAt(states, events, m - 1);
        ArchivedStays(states[m - 1], events[m - 1], k);
        assert AnsweredYes(states, events, k, m - 1) <==> k in states[m].runtimes && states[m].runtimes[k].archived;
      }
    }
  }

  /** So under the application an archived session is archived for good and no run is active on it,
      then or later. */
  lemma {:induction false} ArchivedForever(states: seq<Sys>, events: seq<Event>, n: nat, m: nat, k: int)
    requires IsRun(states, events) && OfApplication(events) && n <= m < |states|
    requires k in states[n].runtimes && states[n].runtimes[k].archived
    ensures k in states[m].runtimes && states[m].runtimes[k].archived && states[m].runtimes[k].active.None? && k in states[m].marked
    ensures forall id :: id in states[m].runs && states[m].runs[id].rt == k ==> !Holds(states[m].runs[id].phase).active
  {
    if n < m {
      ArchivedForever(states, events, n, m - 1, k);
      ArchivedThroughout(states, events, m - 1, m, k);
    }
    ArchivedIsMarked(states, events, m, k);
    ArchivedIdle(states, events, m, k);
  }

  // ---------------------------------------------------------------- what is announced and recorded

  /** The result of a run before it is normalised: what its body returned, with the cancellation
      override, or a cancellation when it left before its body. */
  function Outcome(run: Run): Result {
    match run.returned
    case None => Result(Cancelled, Some(ContextEnded), false)
    case Some(r) => Override(r.res, r.ctxDone)
  }

  /** Where the outcome of a run is found at each stage of its end. */
  predicate ToldOk(run: Run) {
    match run.phase
    case Closing(res, _) => res == Outcome(run) && run.announced == Some(res.state)
    case Journaled(res, _) => res == Normal(Outcome(run)) && run.announced == Some(Outcome(run).state)
    case Cleared(res, _) => res == Normal(Outcome(run)) && run.announced == Some(Outcome(run).state)
    case _ =>
      if Ended(run.phase) then run.state == Normal(Outcome(run)).state && run.announced == Some(Outcome(run).state)
      else run.returned.None? && run.announced.None?
  }

  lemma NextTold(run: Run, v: Option<Reason>, room: bool, ctxDone: bool, c: Choice)
    requires ToldOk(run) && (run.phase.Body? ==> c.Returns?)
    ensures ToldOk(NextRun(run, v, room, ctxDone, c))
  {}

  lemma HappenTold(s: Sys, e: Event, id: string)
    requires Enabled(s, e) && id in Happen(s, e).runs && (id in s.runs ==> ToldOk(s.runs[id]))
    ensures ToldOk(Happen(s, e).runs[id])
  {
    if e.Advance? && e.id == id {
      NextTold(s.runs[id], Verdict(s.runtimes[s.runs[id].rt]), s.pending < s.maxPending, CtxDone(s, s.runs[id]), e.choice);
    }
  }

  lemma {:induction false} RunTold(states: seq<Sys>, events: seq<Event>, n: nat, id: string)
    requires IsRun(states, events) && n < |states| && id in states[n].runs
    ensures ToldOk(states[n].runs[id])
  {
    if n > 0 {
      assert StepAt(states, events, n - 1);
      if id in states[n - 1].runs { RunTold(states, events, n - 1, id); }
      HappenTold(states[n - 1], events[n - 1], id);
    }
  }

  /** The state that goes with an error. */
  function Fate(f: Fault): RunState {
    if f.ContextEnded? then Cancelled else Failed
  }

  /** What Session.Run returns: an error with its state; no error with completion, or with
      cancellation for a blank input. */
  predicate Consistent(res: Result) {
    match res.err
    case None => res.state.Completed? || res.state.Cancelled?
    case Some(f) => res.state == Fate(f)
  }

  /** The body returned, by a context that was not done, a state that its error or the lack of one
      bears out; or by one that was done, no error of its own. */
  predicate Agrees(r: Returned) {
    if r.ctxDone then r.res.err != Some(OtherFault)
    else if r.res.err.Some? then r.res.state == Fate(r.res.err.value)
    else Terminal(r.res.state)
  }

  /** Of every run that ended, the event announced the state that was recorded, if and only if it left
      before its body or its body's answer agrees. For what Session.Run returns they differ in one case:
      a cancelled run whose body failed with an error of its own is announced as cancelled and recorded
      as failed. */
  lemma EventMatchesRecord(states: seq<Sys>, events: seq<Event>, n: nat, id: string)
    requires IsRun(states, events) && n < |states| && id in states[n].runs && Ended(states[n].runs[id].phase)
    ensures var run := states[n].runs[id];
      && (run.announced == Some(run.state) <==> run.returned.None? || Agrees(run.returned.value))
      && (run.returned.Some? && Consistent(run.returned.value.res) ==>
            var own := run.returned.value.ctxDone && run.returned.value.res.err == Some(OtherFault);
            && (run.announced == Some(run.state) <==> !own)
            && (own ==> run.announced == Some(Cancelled) && run.state == Failed))
  {
    RunTold(states, events, n, id);
  }

  // ---------------------------------------------------------------- progress

  /** Steps left at most. */
  function Rank(p: Phase): nat {
    match p
    case Looked => 20
    case Tokened => 19
    case Reserved => 18
    case Bound => 17
    case Undoing(_) => 16
    case Refused(_) => 15
    case Recorded => 16
    case AtGate => 15
    case AtSlot => 14
    case DropGate => 13
    case DropToken => 12
    case Admitted => 13
    case Starting => 12
    case Body => 11
    case Closing(_, _) => 10
    case Journaled(_, _) => 9
    case Cleared(_, _) => 8
    case Finished(_) => 7
    case Exiting => 6
    case Leaving => 5
    case Done => 0
    case Rejected(_) => 0
  }

  lemma PhaseDescends(p: Phase, v: Option<Reason>, room: bool, ctxDone: bool, c: Choice)
    requires !p.Done? && !p.Rejected? && (p.Body? ==> c.Returns?)
    ensures Rank(NextPhase(p, v, room, ctxDone, c)) < Rank(p)
  {}

  lemma StepDescends(s: Sys, id: string, c: Choice)
    requires CanStep(s, id, c)
    ensures id in Step(s, id, c).runs && Rank(Step(s, id, c).runs[id].phase) < Rank(s.runs[id].phase)
  {
    PhaseDescends(s.runs[id].phase, Verdict(s.runtimes[s.runs[id].rt]), s.pending < s.maxPending, CtxDone(s, s.runs[id]), c);
  }

  /** Nothing but its own steps moves a run. */
  lemma OthersStay(s: Sys, e: Event, id: string)
    requires Enabled(s, e) && id in s.runs && !(e.Advance? && e.id == id)
    ensures id in Happen(s, e).runs && Happen(s, e).runs[id].phase == s.runs[id].phase
  {}

  function StepsOf(events: seq<Event>, id: string): nat {
    if events == [] then 0
    else StepsOf(events[..|events| - 1], id) + One(events[|events| - 1].Advance? && events[|events| - 1].id == id)
  }

  /** A run takes at most twenty steps, whatever happens around it. */
  lemma {:induction false} StepsBounded(states: seq<Sys>, events: seq<Event>, n: nat, m: nat, id: string)
    requires IsRun(states, events) && n <= m < |states| && id in states[n].runs
    ensures id in states[m].runs
    ensures StepsOf(events[n..m], id) + Rank(states[m].runs[id].phase) <= Rank(states[n].runs[id].phase) <= 20
  {
    if n < m {
      StepsBounded(states, events, n, m - 1, id);
      var e := events[m - 1];
      assert events[n..m][..m - n - 1] == events[n..m - 1];
      assert StepAt(states, events, m - 1);
      if e.Advance? && e.id == id { StepDescends(states[m - 1], id, e.choice); } else { OthersStay(states[m - 1], e, id); }
    }
  }

  predicate Unfinished(p: Phase) {
    !p.Done? && !p.Rejected?
  }

  predicate Waits(p: Phase) {
    p.AtGate? || p.AtSlot?
  }

  /** The choice with which a run that waits for nobody can go on. */
  function Forward(p: Phase): Choice {
    if p.Body? then Returns(Result(Completed, None, true)) else Go
  }

  ghost predicate SomeStep(s: Sys) {
    exists id, c :: CanStep(s, id, c)
  }

  lemma Moves(s: Sys, id: string)
    requires id in s.runs && s.runs[id].rt in s.runtimes
    requires Unfinished(s.runs[id].phase) && !Waits(s.runs[id].phase)
    ensures SomeStep(s)
  {
    assert CanStep(s, id, Forward(s.runs[id].phase));
  }

  lemma WaitsHold(p: Phase)
    requires Unfinished(p) ==> Waits(p)
    ensures !Holds(p).slot && Holds(p).token == Unfinished(p) && (p.AtGate? ==> !Holds(p).gate)
    ensures Holds(p).gate ==> p.AtSlot?
  {}

  ghost predicate AllWait(s: Sys) {
    forall r :: r in s.runs ==> (Unfinished(s.runs[r].phase) ==> Waits(s.runs[r].phase))
  }

  /** With everyone waiting no slot is taken. */
  lemma SlotFree(s: Sys)
    requires SlotsOk(s) && AllWait(s)
    ensures s.slots == 0
  {
    forall r | r in s.runs ensures r !in InSlot(s.runs) { WaitsHold(s.runs[r].phase); }
    assert InSlot(s.runs) == {};
  }

  /** With everyone waiting for a gate no gate is taken. */
  lemma GateFree(s: Sys, k: int)
    requires GatesOk(s) && AllWait(s) && k in s.runtimes && forall r :: r in s.runs ==> !s.runs[r].phase.AtSlot?
    ensures s.runtimes[k].gate == 0
  {
    forall r | r in s.runs ensures r !in InGate(s.runs, k) { WaitsHold(s.runs[r].phase); }
    assert InGate(s.runs, k) == {};
  }

  /** No wait cycle: the gate is taken before the slot, so while a run is unfinished some run can
      go on, provided bodies return. */
  lemma NoDeadlock(s: Sys, id: string)
    requires Inv(s) && s.maxRuns > 0 && id in s.runs && Unfinished(s.runs[id].phase)
    ensures SomeStep(s)
  {
    if r :| r in s.runs && Unfinished(s.runs[r].phase) && !Waits(s.runs[r].phase) {
      Moves(s, r);
    } else {
      assert AllWait(s);
      SlotFree(s);
      if r :| r in s.runs && s.runs[r].phase.AtSlot? {
        assert CanStep(s, r, Go);
      } else {
        GateFree(s, s.runs[id].rt);
        assert CanStep(s, id, Go);
      }
    }
  }

  lemma {:induction false} LimitsKept(states: seq<Sys>, events: seq<Event>, n: nat)
    requires IsRun(states, events) && n < |states|
    ensures states[n].maxRuns == states[0].maxRuns > 0
  {
    if n > 0 {
      LimitsKept(states, events, n - 1);
      assert StepAt(states, events, n - 1);
    }
  }

  /** Where nothing can go on, every run has ended or was refused, and every token is back. */
  lemma Quiescent(states: seq<Sys>, events: seq<Event>, n: nat)
    requires IsRun(states, events) && n < |states| && !SomeStep(states[n])
    ensures forall id :: id in states[n].runs ==> states[n].runs[id].phase.Done? || states[n].runs[id].phase.Rejected?
    ensures states[n].pending == 0 && states[n].slots == 0
    ensures forall k :: k in states[n].runtimes ==> states[n].runtimes[k].gate == 0 && states[n].runtimes[k].active.None?
  {
    RunInv(states, events, n);
    LimitsKept(states, events, n);
    AllBack(states[n]);
  }

  lemma AllBack(s: Sys)
    requires Inv(s) && s.maxRuns > 0 && !SomeStep(s)
    ensures forall id :: id in s.runs ==> s.runs[id].phase.Done? || s.runs[id].phase.Rejected?
    ensures s.pending == 0 && s.slots == 0
    ensures forall k :: k in s.runtimes ==> s.runtimes[k].gate == 0 && s.runtimes[k].active.None?
  {
    hide CanStep, LedgersOk;
    forall id | id in s.runs ensures s.runs[id].phase.Done? || s.runs[id].phase.Rejected? {
      if Unfinished(s.runs[id].phase) { NoDeadlock(s, id); }
    }
    assert AllWait(s);
    SlotFree(s);
    forall r | r in s.runs ensures r !in Owing(s.runs) { WaitsHold(s.runs[r].phase); }
    assert Owing(s.runs) == {};
    forall k | k in s.runtimes ensures s.runtimes[k].gate == 0 { GateFree(s, k); }
  }

  /** A cancelled run that waits for its gate or a slot can always leave. */
  lemma CancelledCanLeave(states: seq<Sys>, events: seq<Event>, n: nat, id: string)
    requires IsRun(states, events) && n < |states| && id in states[n].runs
    requires Waits(states[n].runs[id].phase) && CtxDone(states[n], states[n].runs[id])
    ensures CanStep(states[n], id, Fail)
  {
    RunAt(states, events, n, id);
  }

  // ---------------------------------------------------------------- all runs together

  function Advances(events: seq<Event>): nat {
    if events == [] then 0 else Advances(events[..|events| - 1]) + One(events[|events| - 1].Advance?)
  }

  ghost function Pick(ids: set<string>): string
    requires ids != {}
    ensures Pick(ids) in ids
  {
    var id :| id in ids; id
  }

  /** The steps of these runs, added up. */
  ghost function StepsOfAll(events: seq<Event>, ids: set<string>): nat {
    if ids == {} then 0 else StepsOf(events, Pick(ids)) + StepsOfAll(events, ids - {Pick(ids)})
  }

  lemma {:induction false} StepsOfNone(ids: set<string>)
    ensures StepsOfAll([], ids) == 0
  {
    if ids != {} { StepsOfNone(ids - {Pick(ids)}); }
  }

  lemma {:induction false} StepsOfSnoc(events: seq<Event>, e: Event, ids: set<string>)
    ensures StepsOfAll(events + [e], ids) == StepsOfAll(events, ids) + One(e.Advance? && e.id in ids)
  {
    if ids != {} {
      StepsOfSnoc(events, e, ids - {Pick(ids)});
      assert (events + [e])[..|events|] == events;
    }
  }

  lemma {:induction false} AllBounded(events: seq<Event>, ids: set<string>)
    requires forall id :: id in ids ==> StepsOf(events, id) <= 20
    ensures StepsOfAll(events, ids) <= 20 * |ids|
  {
    if ids != {} {
      AllBounded(events, ids - {Pick(ids)});
      assert |ids| == |ids - {Pick(ids)}| + 1;
    }
  }

  predicate NoSubmit(events: seq<Event>) {
    forall k :: 0 <= k < |events| ==> !events[k].Submit?
  }

  lemma NoSubmitInit(events: seq<Event>, e: Event)
    ensures NoSubmit(events + [e]) <==> NoSubmit(events) && !e.Submit?
  {
    assert (events + [e])[|events|] == e;
    assert forall k :: 0 <= k < |events| ==> (events + [e])[k] == events[k];
  }

  lemma SameRuns(s: Sys, e: Event)
    requires Enabled(s, e) && !e.Submit?
    ensures Happen(s, e).runs.Keys == s.runs.Keys
  {}

  /** Without new submissions the steps are those of the runs there are. */
  lemma {:induction false} AdvancesAreSteps(states: seq<Sys>, events: seq<Event>, n: nat, m: nat)
    requires IsRun(states, events) && n <= m < |states| && NoSubmit(events[n..m])
    ensures states[m].runs.Keys == states[n].runs.Keys
    ensures Advances(events[n..m]) == StepsOfAll(events[n..m], states[n].runs.Keys)
  {
    if n == m {
      StepsOfNone(states[n].runs.Keys);
    } else {
      var e := events[m - 1];
      assert events[n..m] == events[n..m - 1] + [e];
      assert e == events[n..m][m - n - 1];
      NoSubmitInit(events[n..m - 1], e);
      AdvancesAreSteps(states, events, n, m - 1);
      assert StepAt(states, events, m - 1);
      SameRuns(states[m - 1], e);
      StepsOfSnoc(events[n..m - 1], e, states[n].runs.Keys);
      assert (events[n..m - 1] + [e])[..m - n - 1] == events[n..m - 1];
    }
  }

  /** From any point on, with no further submission, all runs together take at most twenty steps each;
      and where none of them can take another, all have ended or were refused and everything is back. */
  lemma {:induction false} Progress(states: seq<Sys>, events: seq<Event>, n: nat, m: nat)
    requires IsRun(states, events) && n <= m < |states| && NoSubmit(events[n..m])
    ensures Advances(events[n..m]) <= 20 * |states[n].runs.Keys|
    ensures !SomeStep(states[m]) ==>
      && (forall id :: id in states[n].runs ==> id in states[m].runs && !Unfinished(states[m].runs[id].phase))
      && states[m].pending == 0 && states[m].slots == 0
  {
    AdvancesAreSteps(states, events, n, m);
    forall id | id in states[n].runs ensures StepsOf(events[n..m], id) <= 20 { StepsBounded(states, events, n, m, id); }
    AllBounded(events[n..m], states[n].runs.Keys);
    if !SomeStep(states[m]) { Quiescent(states, events, m); }
  }

  lemma Extend(states: seq<Sys>, events: seq<Event>, e: Event)
    requires IsRun(states, events) && Enabled(states[|events|], e)
    ensures IsRun(states + [Happen(states[|events|], e)], events + [e])
  {
    var more, all := states + [Happen(states[|events|], e)], events + [e];
    forall n | 0 <= n < |all| ensures StepAt(more, all, n) {
      if n < |events| { assert StepAt(states, events, n); }
    }
  }

  /** And from any point on they can all be finished by steps of their own, bodies returning. */
  lemma {:induction false} CanFinish(states: seq<Sys>, events: seq<Event>, n: nat) returns (more: seq<Sys>, all: seq<Event>)
    requires IsRun(states, events) && n <= |events| && NoSubmit(events[n..])
    ensures IsRun(more, all) && events <= all && states <= more && NoSubmit(all[n..])
    ensures forall k :: |events| <= k < |all| ==> all[k].Advance?
    ensures !SomeStep(more[|all|])
    decreases 20 * |states[n].runs.Keys| - Advances(events[n..])
  {
    more, all := states, events;
    if id, c :| CanStep(states[|events|], id, c) {
      var e := Advance(id, c);
      Extend(states, events, e);
      var states', events' := states + [Happen(states[|events|], e)], events + [e];
      assert events'[n..] == events[n..] + [e] && events'[n..][..|events| - n] == events[n..];
      assert events'[n..] == events'[n..|events'|];
      Progress(states', events', n, |events'|);
      more, all := CanFinish(states', events', n);
    }
  }
}

/** Runs in which three properties one might expect of the supervisor fail. The conditions under which they
    hold are RunTheorems.EventMatchesRecord, RunTheorems.ArchivedThroughout and RunTheorems.MarkedIdle. */
module RunWitness {
  import opened Events
  import opened RunModel
  import opened RunInvariant

  /** One session with one run, and room for one. */
  function Sole(run: Run, active: Option<string>, gate: nat, pending: nat, slots: nat): Sys {
    Sys(1, 1, false, false, map["s" := 0], map[0 := Runtime(true, false, false, active, gate)], {}, map["r" := run], pending, slots)
  }

  lemma SoleStep(run: Run, active: Option<string>, gate: nat, pending: nat, slots: nat, c: Choice)
    requires run.rt == 0 && CanStep(Sole(run, active, gate, pending, slots), "r", c)
    ensures Step(Sole(run, active, gate, pending, slots), "r", c)
      == Sole(NextRun(run, Verdict(Runtime(true, false, false, active, gate)), pending < 1, run.cancelled, c),
              NextActive(active, run.phase, Verdict(Runtime(true, false, false, active, gate)), "r"),
              Moved(gate, GateMove(run.phase, c)), Moved(pending, TokenMove(run.phase, pending < 1)),
              Moved(slots, SlotMove(run.phase, c)))
  {
    var s := Sole(run, active, gate, pending, slots);
    assert map["r" := run]["r" := Stepped(s, "r", c)] == map["r" := Stepped(s, "r", c)];
    var rt := Runtime(true, false, false, active, gate);
    assert map[0 := rt][0 := NextRuntime(rt, run.phase, "r", c)] == map[0 := NextRuntime(rt, run.phase, "r", c)];
  }

  /** The run below on its way in, and on its way out. */
  function Entering(phase: Phase, token: Ledger, gate: Ledger, slot: Ledger): Run {
    Run(0, phase, if phase.Body? then Running else Queued, None, 0, false, None, None,
        !(phase.Looked? || phase.Tokened? || phase.Reserved? || phase.Bound? || phase.Recorded?), false, token, gate, slot)
  }

  const OWN_ERROR := Result(Failed, Some(OtherFault), false)

  function Answered(phase: Phase): Run {
    Run(0, phase, if Ended(phase) then Failed else Running, if Ended(phase) then Some(OWN_ERROR) else None, One(Ended(phase)),
        !phase.Closing?, Some(Returned(OWN_ERROR, true)), Some(Cancelled), true, true, BACK, TAKEN, TAKEN)
  }

  const CANCELLED := Entering(Body, BACK, TAKEN, TAKEN).(cancelled := true)

  const NONE := Ledger(0, 0)
  const TAKEN := Ledger(1, 0)
  const BACK := Ledger(1, 1)

  /** Submitted and admitted. */
  function PlayIn(k: nat): Sys {
    if k == 0 then Start(1, 1)
    else if k == 1 then Start(1, 1).(registry := map["s" := 0], runtimes := map[0 := Runtime(false, false, false, None, 0)])
    else if k == 2 then Start(1, 1).(registry := map["s" := 0], runtimes := map[0 := Runtime(true, false, false, None, 0)])
    else if k == 3 then Sole(Entering(Looked, NONE, NONE, NONE), None, 0, 0, 0)
    else if k == 4 then Sole(Entering(Tokened, TAKEN, NONE, NONE), None, 0, 1, 0)
    else if k == 5 then Sole(Entering(Reserved, TAKEN, NONE, NONE), Some("r"), 0, 1, 0)
    else if k == 6 then Sole(Entering(Bound, TAKEN, NONE, NONE), Some("r"), 0, 1, 0)
    else if k == 7 then Sole(Entering(Recorded, TAKEN, NONE, NONE), Some("r"), 0, 1, 0)
    else if k == 8 then Sole(Entering(AtGate, TAKEN, NONE, NONE), Some("r"), 0, 1, 0)
    else if k == 9 then Sole(Entering(AtSlot, TAKEN, TAKEN, NONE), Some("r"), 1, 1, 0)
    else if k == 10 then Sole(Entering(Admitted, TAKEN, TAKEN, TAKEN), Some("r"), 1, 1, 1)
    else if k == 11 then Sole(Entering(Starting, BACK, TAKEN, TAKEN), Some("r"), 1, 0, 1)
    else Sole(Entering(Body, BACK, TAKEN, TAKEN), Some("r"), 1, 0, 1)
  }

  /** Cancelled in its body, which then fails by itself. */
  function PlayOut(k: nat): Sys {
    if k == 12 then PlayIn(12)
    else if k == 13 then Sole(CANCELLED, Some("r"), 1, 0, 1)
    else if k == 14 then Sole(Answered(Closing(Result(Cancelled, Some(OtherFault), false), true)), Some("r"), 1, 0, 1)
    else if k == 15 then Sole(Answered(Journaled(OWN_ERROR, true)), Some("r"), 1, 0, 1)
    else if k == 16 then Sole(Answered(Cleared(OWN_ERROR, true)), None, 1, 0, 1)
    else Sole(Answered(Finished(true)), None, 1, 0, 1)
  }

  function Script(k: nat): Event {
    if k == 0 then Register("s", 0, Origin(false, false))
    else if k == 1 then BindSession(0, true)
    else if k == 2 then Submit("r", "s")
    else if k == 12 then CancelHandle("r")
    else if k == 13 then Advance("r", Returns(OWN_ERROR))
    else Advance("r", Go)
  }

  lemma PlayOpens(k: nat)
    requires k < 3
    ensures Enabled(PlayIn(k), Script(k)) && PlayIn(k + 1) == Happen(PlayIn(k), Script(k))
  {}

  /** One step of the only run, seen as a step of the system. */
  lemma Goes(run: Run, active: Option<string>, gate: nat, pending: nat, slots: nat, c: Choice,
             run': Run, active': Option<string>, gate': nat, pending': nat, slots': nat)
    requires run.rt == 0 && CanStep(Sole(run, active, gate, pending, slots), "r", c)
    requires run' == NextRun(run, Verdict(Runtime(true, false, false, active, gate)), pending < 1, run.cancelled, c)
    requires active' == NextActive(active, run.phase, Verdict(Runtime(true, false, false, active, gate)), "r")
    requires gate' == Moved(gate, GateMove(run.phase, c)) && pending' == Moved(pending, TokenMove(run.phase, pending < 1))
    requires slots' == Moved(slots, SlotMove(run.phase, c))
    ensures Enabled(Sole(run, active, gate, pending, slots), Advance("r", c))
    ensures Sole(run', active', gate', pending', slots') == Happen(Sole(run, active, gate, pending, slots), Advance("r", c))
  {
    SoleStep(run, active, gate, pending, slots, c);
  }

  lemma PlayReserves(k: nat)
    requires 3 <= k < 6
    ensures Enabled(PlayIn(k), Script(k)) && PlayIn(k + 1) == Happen(PlayIn(k), Script(k))
  {
    if k == 3 {
      Goes(Entering(Looked, NONE, NONE, NONE), None, 0, 0, 0, Go,
                Entering(Tokened, TAKEN, NONE, NONE), None, 0, 1, 0);
    } else if k == 4 {
      Goes(Entering(Tokened, TAKEN, NONE, NONE), None, 0, 1, 0, Go,
                Entering(Reserved, TAKEN, NONE, NONE), Some("r"), 0, 1, 0);
    } else {
      Goes(Entering(Reserved, TAKEN, NONE, NONE), Some("r"), 0, 1, 0, Go,
                Entering(Bound, TAKEN, NONE, NONE), Some("r"), 0, 1, 0);
    }
  }

  lemma PlayRecords(k: nat)
    requires 6 <= k < 9
    ensures Enabled(PlayIn(k), Script(k)) && PlayIn(k + 1) == Happen(PlayIn(k), Script(k))
  {
    if k == 6 {
      Goes(Entering(Bound, TAKEN, NONE, NONE), Some("r"), 0, 1, 0, Go,
                Entering(Recorded, TAKEN, NONE, NONE), Some("r"), 0, 1, 0);
    } else if k == 7 {
      Goes(Entering(Recorded, TAKEN, NONE, NONE), Some("r"), 0, 1, 0, Go,
                Entering(AtGate, TAKEN, NONE, NONE), Some("r"), 0, 1, 0);
    } else {
      Goes(Entering(AtGate, TAKEN, NONE, NONE), Some("r"), 0, 1, 0, Go,
                Entering(AtSlot, TAKEN, TAKEN, NONE), Some("r"), 1, 1, 0);
    }
  }

  lemma PlayEnters(k: nat)
    requires 9 <= k < 12
    ensures Enabled(PlayIn(k), Script(k)) && PlayIn(k + 1) == Happen(PlayIn(k), Script(k))
  {
    if k == 9 {
      Goes(Entering(AtSlot, TAKEN, TAKEN, NONE), Some("r"), 1, 1, 0, Go,
                Entering(Admitted, TAKEN, TAKEN, TAKEN), Some("r"), 1, 1, 1);
    } else if k == 10 {
      Goes(Entering(Admitted, TAKEN, TAKEN, TAKEN), Some("r"), 1, 1, 1, Go,
                Entering(Starting, BACK, TAKEN, TAKEN), Some("r"), 1, 0, 1);
    } else {
      Goes(Entering(Starting, BACK, TAKEN, TAKEN), Some("r"), 1, 0, 1, Go,
                Entering(Body, BACK, TAKEN, TAKEN), Some("r"), 1, 0, 1);
    }
  }

  lemma PlayCancels()
    ensures Enabled(PlayOut(12), Script(12)) && PlayOut(13) == Happen(PlayOut(12), Script(12))
  {
    var run := Entering(Body, BACK, TAKEN, TAKEN);
    assert map["r" := run]["r" := run.(cancelled := true)] == map["r" := run.(cancelled := true)];
  }

  lemma PlayAnswers(k: nat)
    requires 13 <= k < 15
    ensures Enabled(PlayOut(k), Script(k)) && PlayOut(k + 1) == Happen(PlayOut(k), Script(k))
  {
    if k == 13 {
      Goes(CANCELLED, Some("r"), 1, 0, 1, Returns(OWN_ERROR),
                Answered(Closing(Result(Cancelled, Some(OtherFault), false), true)), Some("r"), 1, 0, 1);
    } else {
      Goes(Answered(Closing(Result(Cancelled, Some(OtherFault), false), true)), Some("r"), 1, 0, 1, Go,
                Answered(Journaled(OWN_ERROR, true)), Some("r"), 1, 0, 1);
    }
  }

  lemma PlayClears()
    ensures Enabled(PlayOut(15), Script(15)) && PlayOut(16) == Happen(PlayOut(15), Script(15))
  {
    Goes(Answered(Journaled(OWN_ERROR, true)), Some("r"), 1, 0, 1, Go, Answered(Cleared(OWN_ERROR, true)), None, 1, 0, 1);
  }

  lemma PlayFinishes()
    ensures Enabled(PlayOut(16), Script(16)) && PlayOut(17) == Happen(PlayOut(16), Script(16))
  {
    Goes(Answered(Cleared(OWN_ERROR, true)), None, 1, 0, 1, Go, Answered(Finished(true)), None, 1, 0, 1);
  }

  /** There is a run in which event and record differ. */
  lemma CancelledYetFailed() returns (states: seq<Sys>, events: seq<Event>)
    ensures IsRun(states, events) && |events| == 17 && "r" in states[17].runs && Ended(states[17].runs["r"].phase)
    ensures states[17].runs["r"].announced == Some(Cancelled) && states[17].runs["r"].state == Failed
  {
    states := seq(18, k requires 0 <= k => if k < 12 then PlayIn(k) else PlayOut(k));
    events := seq(17, k requires 0 <= k => Script(k));
    forall n | 0 <= n < |events| ensures StepAt(states, events, n) {
      if n < 3 { PlayOpens(n); }
      else if n < 6 { PlayReserves(n); }
      else if n < 9 { PlayRecords(n); }
      else if n < 12 { PlayEnters(n); }
      else if n == 12 { PlayCancels(); }
      else if n < 15 { PlayAnswers(n); }
      else if n == 15 { PlayClears(); }
      else { PlayFinishes(); }
    }
  }

  /** Archive as it is exported: with a commit of the caller's choice that fails, an archived runtime
      loses its mark. */
  lemma ArchiveUndone() returns (states: seq<Sys>, events: seq<Event>)
    ensures IsRun(states, events) && events == [Register("s", 0, Origin(false, false)), Archive(0, OfCaller(true)), Archive(0, OfCaller(false))]
    ensures 0 in states[2].runtimes && states[2].runtimes[0].archived
    ensures 0 in states[3].runtimes && !states[3].runtimes[0].archived
  {
    var s0 := Start(1, 1);
    var s1 := Happen(s0, Register("s", 0, Origin(false, false)));
    var s2 := Happen(s1, Archive(0, OfCaller(true)));
    var s3 := Happen(s2, Archive(0, OfCaller(false)));
    states, events := [s0, s1, s2, s3], [Register("s", 0, Origin(false, false)), Archive(0, OfCaller(true)), Archive(0, OfCaller(false))];
    assert forall n :: 0 <= n < |events| ==> StepAt(states, events, n);
  }

  /** The first steps of a run on one runtime whose store says archived. */
  function OnMarked(bound: bool, active: Option<string>, runs: map<string, Run>, pending: nat): Sys {
    Sys(1, 1, false, false, map["s" := 0], map[0 := Runtime(bound, false, false, active, 0)], {0}, runs, pending, 0)
  }

  lemma MarkedStep(run: Run, active: Option<string>, pending: nat)
    requires run.rt == 0 && (run.phase.Looked? || run.phase.Tokened?)
    ensures var s := OnMarked(true, active, map["r" := run], pending);
      && Enabled(s, Advance("r", Go))
      && Happen(s, Advance("r", Go))
         == OnMarked(true, NextActive(active, run.phase, Verdict(Runtime(true, false, false, active, 0)), "r"),
                     map["r" := NextRun(run, Verdict(Runtime(true, false, false, active, 0)), pending < 1, run.cancelled, Go)],
                     Moved(pending, TokenMove(run.phase, pending < 1)))
  {
    var s := OnMarked(true, active, map["r" := run], pending);
    assert map["r" := run]["r" := Stepped(s, "r", Go)] == map["r" := Stepped(s, "r", Go)];
    var rt := Runtime(true, false, false, active, 0);
    assert map[0 := rt][0 := NextRuntime(rt, run.phase, "r", Go)] == map[0 := NextRuntime(rt, run.phase, "r", Go)];
  }

  /** A runtime made for an archived session and not told so takes a run. */
  lemma RunOnArchived() returns (states: seq<Sys>, events: seq<Event>)
    ensures IsRun(states, events)
    ensures events == [Register("s", 0, Origin(true, false)), BindSession(0, true), Submit("r", "s"),
                       Advance("r", Go), Advance("r", Go)]
    ensures 0 in states[5].marked && 0 in states[5].runtimes && states[5].runtimes[0].active == Some("r")
  {
    var looked, tokened, reserved := Entering(Looked, NONE, NONE, NONE), Entering(Tokened, TAKEN, NONE, NONE), Entering(Reserved, TAKEN, NONE, NONE);
    states := [Start(1, 1), OnMarked(false, None, map[], 0), OnMarked(true, None, map[], 0),
               OnMarked(true, None, map["r" := looked], 0), OnMarked(true, None, map["r" := tokened], 1),
               OnMarked(true, Some("r"), map["r" := reserved], 1)];
    events := [Register("s", 0, Origin(true, false)), BindSession(0, true), Submit("r", "s"), Advance("r", Go), Advance("r", Go)];
    MarkedOpens();
    MarkedEnters();
    hide Happen, Enabled, Entering, NextRun;
    forall n | 0 <= n < |events| ensures StepAt(states, events, n) {
      assert n == 0 || n == 1 || n == 2 || n == 3 || n == 4;
    }
  }

  lemma MarkedEnters()
    ensures var s := OnMarked(true, None, map["r" := Entering(Looked, NONE, NONE, NONE)], 0);
      var t := OnMarked(true, None, map["r" := Entering(Tokened, TAKEN, NONE, NONE)], 1);
      && Enabled(s, Advance("r", Go)) && Happen(s, Advance("r", Go)) == t
      && Enabled(t, Advance("r", Go))
      && Happen(t, Advance("r", Go)) == OnMarked(true, Some("r"), map["r" := Entering(Reserved, TAKEN, NONE, NONE)], 1)
  {
    MarkedStep(Entering(Looked, NONE, NONE, NONE), None, 0);
    MarkedStep(Entering(Tokened, TAKEN, NONE, NONE), None, 1);
  }

  lemma MarkedOpens()
    ensures Happen(Start(1, 1), Register("s", 0, Origin(true, false))) == OnMarked(false, None, map[], 0)
    ensures Enabled(OnMarked(false, None, map[], 0), BindSession(0, true))
    ensures Happen(OnMarked(false, None, map[], 0), BindSession(0, true)) == OnMarked(true, None, map[], 0)
    ensures Enabled(OnMarked(true, None, map[], 0), Submit("r", "s"))
    ensures Happen(OnMarked(true, None, map[], 0), Submit("r", "s"))
      == OnMarked(true, None, map["r" := Entering(Looked, NONE, NONE, NONE)], 0)
  {}
}

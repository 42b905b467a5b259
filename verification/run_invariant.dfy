/** What every step of the run system keeps: tokens, slots and gates are exactly the runs that hold
    them, each session has at most one active run, and a run ends once and for all. */
module RunInvariant {
  import opened Events
  import opened RunModel

  // ---------------------------------------------------------------- counting

  function Owing(runs: map<string, Run>): set<string> {
    set r | r in runs && Holds(runs[r].phase).token
  }

  function InSlot(runs: map<string, Run>): set<string> {
    set r | r in runs && Holds(runs[r].phase).slot
  }

  function InGate(runs: map<string, Run>, k: int): set<string> {
    set r | r in runs && runs[r].rt == k && Holds(runs[r].phase).gate
  }

  function One(b: bool): nat {
    if b then 1 else 0
  }

  /** Changing one element changes the size of a set by one at most. */
  lemma SizeAfter(a: set<string>, b: set<string>, id: string)
    requires b - {id} == a - {id}
    ensures |b| == |a| - One(id in a) + One(id in b)
  {
    SizeWithout(a, id);
    SizeWithout(b, id);
  }

  lemma SizeWithout(a: set<string>, id: string)
    ensures |a| == |a - {id}| + One(id in a)
  {
    assert a == (a - {id}) + (if id in a then {id} else {});
  }

  lemma OwingAfter(runs: map<string, Run>, id: string, run: Run)
    ensures |Owing(runs[id := run])| == |Owing(runs)| - One(id in Owing(runs)) + One(Holds(run.phase).token)
  {
    var a, b := Owing(runs), Owing(runs[id := run]);
    assert b - {id} == a - {id};
    assert id in b <==> Holds(run.phase).token;
    SizeAfter(a, b, id);
  }

  lemma InSlotAfter(runs: map<string, Run>, id: string, run: Run)
    ensures |InSlot(runs[id := run])| == |InSlot(runs)| - One(id in InSlot(runs)) + One(Holds(run.phase).slot)
  {
    var a, b := InSlot(runs), InSlot(runs[id := run]);
    assert b - {id} == a - {id};
    assert id in b <==> Holds(run.phase).slot;
    SizeAfter(a, b, id);
  }

  lemma InGateAfter(runs: map<string, Run>, id: string, run: Run, k: int)
    ensures |InGate(runs[id := run], k)|
         == |InGate(runs, k)| - One(id in InGate(runs, k)) + One(run.rt == k && Holds(run.phase).gate)
  {
    var a, b := InGate(runs, k), InGate(runs[id := run], k);
    assert b - {id} == a - {id};
    assert id in b <==> run.rt == k && Holds(run.phase).gate;
    SizeAfter(a, b, id);
  }

  // ---------------------------------------------------------------- the invariant

  /** A ledger shows one unit taken and not given back exactly while it is held, and never a second. */
  predicate Settled(l: Ledger, holds: bool) {
    l.took <= 1 && l.took == l.gave + One(holds)
  }

  /** The phases in which the token, the gate and the slot were not yet taken. */
  predicate BeforeToken(p: Phase) {
    p.Looked?
  }

  predicate BeforeGate(p: Phase) {
    match p
    case Looked => true
    case Tokened => true
    case Reserved => true
    case Bound => true
    case Recorded => true
    case AtGate => true
    case _ => false
  }

  predicate BeforeSlot(p: Phase) {
    p.AtSlot? || BeforeGate(p)
  }

  predicate LedgersOk(run: Run) {
    && Settled(run.token, Holds(run.phase).token) && (BeforeToken(run.phase) ==> run.token.took == 0)
    && Settled(run.gate, Holds(run.phase).gate) && (BeforeGate(run.phase) ==> run.gate.took == 0)
    && Settled(run.slot, Holds(run.phase).slot) && (BeforeSlot(run.phase) ==> run.slot.took == 0)
    && (run.phase.Looked? || run.phase.Rejected? || run.token.took == 1)
  }

  predicate LifeOk(run: Run) {
    && (Terminal(run.state) <==> Ended(run.phase))
    && run.closes == One(Ended(run.phase))
    && (run.attempted <==> run.phase.Journaled? || run.phase.Cleared? || Ended(run.phase))
    && run.result.Some? == Ended(run.phase)
    && (Ended(run.phase) ==> run.result.value.state == run.state)
    && (run.phase.Journaled? || run.phase.Cleared? ==> Terminal(run.phase.res.state))
    && (run.cancelled ==> run.cancellable)
  }

  /** What is true of a run by itself. */
  predicate RunOk(run: Run) {
    LedgersOk(run) && LifeOk(run)
  }

  predicate RunsOk(s: Sys) {
    forall r :: r in s.runs ==> RunOk(s.runs[r]) && s.runs[r].rt in s.runtimes
  }

  /** active names exactly the run that occupies the session. */
  predicate ActiveOk(s: Sys) {
    && (forall r :: r in s.runs && s.runs[r].rt in s.runtimes ==>
          (Holds(s.runs[r].phase).active <==> s.runtimes[s.runs[r].rt].active == Some(r)))
    && (forall k :: k in s.runtimes && s.runtimes[k].active.Some? ==>
          s.runtimes[k].active.value in s.runs && s.runs[s.runtimes[k].active.value].rt == k)
  }

  predicate GatesOk(s: Sys) {
    forall k :: k in s.runtimes ==> s.runtimes[k].gate == |InGate(s.runs, k)| <= 1
  }

  predicate TokensOk(s: Sys) {
    s.pending == |Owing(s.runs)| <= s.maxPending
  }

  predicate SlotsOk(s: Sys) {
    s.slots == |InSlot(s.runs)| <= s.maxRuns
  }

  /** A session closed to new runs has no active one. */
  predicate ClosedOk(s: Sys) {
    forall k :: k in s.runtimes && s.runtimes[k].retired ==> s.runtimes[k].active.None?
  }

  predicate RegistryOk(s: Sys) {
    forall x :: x in s.registry ==> s.registry[x] in s.runtimes
  }

  predicate Inv(s: Sys) {
    RunsOk(s) && ActiveOk(s) && GatesOk(s) && TokensOk(s) && SlotsOk(s) && ClosedOk(s) && RegistryOk(s)
  }

  // ---------------------------------------------------------------- one run changes

  lemma RunsKept(s: Sys, t: Sys, id: string, run: Run)
    requires RunsOk(s) && t.runs == s.runs[id := run] && RunOk(run) && run.rt in s.runtimes
    requires s.runtimes.Keys <= t.runtimes.Keys
    ensures RunsOk(t)
  {}

  lemma TokensKept(s: Sys, t: Sys, id: string, run: Run)
    requires TokensOk(s) && t.runs == s.runs[id := run] && t.maxPending == s.maxPending
    requires t.pending == s.pending - One(id in Owing(s.runs)) + One(Holds(run.phase).token) <= s.maxPending
    ensures TokensOk(t)
  {
    OwingAfter(s.runs, id, run);
  }

  lemma SlotsKept(s: Sys, t: Sys, id: string, run: Run)
    requires SlotsOk(s) && t.runs == s.runs[id := run] && t.maxRuns == s.maxRuns
    requires t.slots == s.slots - One(id in InSlot(s.runs)) + One(Holds(run.phase).slot) <= s.maxRuns
    ensures SlotsOk(t)
  {
    InSlotAfter(s.runs, id, run);
  }

  lemma GatesKept(s: Sys, t: Sys, id: string, run: Run)
    requires GatesOk(s) && t.runs == s.runs[id := run] && t.runtimes.Keys == s.runtimes.Keys
    requires id in s.runs ==> s.runs[id].rt == run.rt
    requires run.rt in s.runtimes
    requires t.runtimes[run.rt].gate
      == s.runtimes[run.rt].gate - One(id in InGate(s.runs, run.rt)) + One(Holds(run.phase).gate) <= 1
    requires forall k :: k in s.runtimes && k != run.rt ==> t.runtimes[k].gate == s.runtimes[k].gate
    ensures GatesOk(t)
  {
    forall k | k in t.runtimes ensures t.runtimes[k].gate == |InGate(t.runs, k)| <= 1 {
      InGateAfter(s.runs, id, run, k);
    }
  }

  /** What active becomes when a run changes its phase. */
  predicate Handed(before: Option<string>, after: Option<string>, id: string, p: Phase) {
    if Holds(p).active then after == Some(id) && (before == None || before == Some(id))
    else after == if before == Some(id) then None else before
  }

  lemma ActiveKept(s: Sys, t: Sys, id: string, run: Run)
    requires RunsOk(s) && ActiveOk(s) && t.runs == s.runs[id := run] && t.runtimes.Keys == s.runtimes.Keys
    requires id in s.runs ==> s.runs[id].rt == run.rt
    requires run.rt in s.runtimes && Handed(s.runtimes[run.rt].active, t.runtimes[run.rt].active, id, run.phase)
    requires forall k :: k in s.runtimes && k != run.rt ==> t.runtimes[k].active == s.runtimes[k].active
    ensures ActiveOk(t)
  {
    forall r | r in t.runs && t.runs[r].rt in t.runtimes
      ensures Holds(t.runs[r].phase).active <==> t.runtimes[t.runs[r].rt].active == Some(r)
    {
      if r != id { assert r in s.runs && t.runs[r] == s.runs[r]; }
    }
    forall k | k in t.runtimes && t.runtimes[k].active.Some?
      ensures t.runtimes[k].active.value in t.runs && t.runs[t.runtimes[k].active.value].rt == k
    {
      if t.runtimes[k].active != Some(id) { assert t.runtimes[k].active == s.runtimes[k].active; }
    }
  }

  // ---------------------------------------------------------------- what a step does to its run

  /** A move agrees with what is held before and after. */
  predicate Fits(m: Move, before: bool, after: bool) {
    match m
    case Keep => before == after
    case TakeOne => !before && after
    case GiveOne => before && !after
  }

  lemma TokenFits(p: Phase, v: Option<Reason>, room: bool, ctxDone: bool, c: Choice)
    ensures Fits(TokenMove(p, room), Holds(p).token, Holds(NextPhase(p, v, room, ctxDone, c)).token)
  {
    match p case Looked => case Tokened => case Refused(_) => case Admitted => case _ =>
  }

  lemma GateFits(p: Phase, v: Option<Reason>, room: bool, ctxDone: bool, c: Choice)
    ensures Fits(GateMove(p, c), Holds(p).gate, Holds(NextPhase(p, v, room, ctxDone, c)).gate)
  {}

  lemma SlotFits(p: Phase, v: Option<Reason>, room: bool, ctxDone: bool, c: Choice)
    ensures Fits(SlotMove(p, c), Holds(p).slot, Holds(NextPhase(p, v, room, ctxDone, c)).slot)
  {}

  lemma ActiveFits(active: Option<string>, p: Phase, rt: Runtime, room: bool, id: string, ctxDone: bool, c: Choice)
    requires (Holds(p).active <==> active == Some(id)) && active == rt.active
    ensures Handed(active, NextActive(active, p, Verdict(rt), id), id, NextPhase(p, Verdict(rt), room, ctxDone, c))
    ensures rt.retired && active.None? ==> NextActive(active, p, Verdict(rt), id).None?
  {}

  /** Each kind is taken where it was not taken before, and only there. */
  lemma FirstTime(p: Phase, v: Option<Reason>, room: bool, ctxDone: bool, c: Choice)
    ensures var q := NextPhase(p, v, room, ctxDone, c);
      && (TokenMove(p, room).TakeOne? ==> BeforeToken(p)) && !BeforeToken(q)
      && (GateMove(p, c).TakeOne? ==> BeforeGate(p)) && (BeforeGate(q) ==> BeforeGate(p) && GateMove(p, c).Keep?)
      && (SlotMove(p, c).TakeOne? ==> BeforeSlot(p)) && (BeforeSlot(q) ==> BeforeSlot(p) && SlotMove(p, c).Keep?)
      && (q.Rejected? || !p.Looked? || TokenMove(p, room).TakeOne?)
  {}

  lemma BookedOk(l: Ledger, m: Move, before: bool, after: bool)
    requires Settled(l, before) && Fits(m, before, after) && (m.TakeOne? ==> l.took == 0)
    ensures Settled(Booked(l, m), after)
  {}

  /** The fields of the next run that count for its ledgers. */
  lemma NextFields(run: Run, v: Option<Reason>, room: bool, ctxDone: bool, c: Choice)
    ensures var next := NextRun(run, v, room, ctxDone, c);
      && next.rt == run.rt && next.phase == NextPhase(run.phase, v, room, ctxDone, c)
      && next.token == Booked(run.token, TokenMove(run.phase, room))
      && next.gate == Booked(run.gate, GateMove(run.phase, c))
      && next.slot == Booked(run.slot, SlotMove(run.phase, c))
  {}

  lemma NextLedgers(run: Run, v: Option<Reason>, room: bool, ctxDone: bool, c: Choice)
    requires LedgersOk(run)
    ensures LedgersOk(NextRun(run, v, room, ctxDone, c)) && NextRun(run, v, room, ctxDone, c).rt == run.rt
  {
    NextFields(run, v, room, ctxDone, c);
    LedgersMoved(run, NextRun(run, v, room, ctxDone, c), v, room, ctxDone, c);
  }

  lemma LedgersMoved(run: Run, next: Run, v: Option<Reason>, room: bool, ctxDone: bool, c: Choice)
    requires LedgersOk(run) && next.phase == NextPhase(run.phase, v, room, ctxDone, c)
    requires next.token == Booked(run.token, TokenMove(run.phase, room))
    requires next.gate == Booked(run.gate, GateMove(run.phase, c)) && next.slot == Booked(run.slot, SlotMove(run.phase, c))
    ensures LedgersOk(next)
  {
    TokenFits(run.phase, v, room, ctxDone, c);
    GateFits(run.phase, v, room, ctxDone, c);
    SlotFits(run.phase, v, room, ctxDone, c);
    FirstTime(run.phase, v, room, ctxDone, c);
    BookedOk(run.token, TokenMove(run.phase, room), Holds(run.phase).token, Holds(next.phase).token);
    BookedOk(run.gate, GateMove(run.phase, c), Holds(run.phase).gate, Holds(next.phase).gate);
    BookedOk(run.slot, SlotMove(run.phase, c), Holds(run.phase).slot, Holds(next.phase).slot);
  }

  lemma NextLife(run: Run, v: Option<Reason>, room: bool, ctxDone: bool, c: Choice)
    requires LifeOk(run)
    ensures LifeOk(NextRun(run, v, room, ctxDone, c))
  {}

  // ---------------------------------------------------------------- steps

  lemma Subset(a: set<string>, b: set<string>)
    requires a <= b
    ensures |a| <= |b|
  {
    assert b == a + (b - a);
  }

  lemma Member(id: string, b: set<string>)
    ensures One(id in b) <= |b|
  {
    if id in b { Subset({id}, b); }
  }

  lemma SteppedOk(s: Sys, id: string, c: Choice)
    requires CanStep(s, id, c) && RunOk(s.runs[id])
    ensures RunOk(Stepped(s, id, c)) && Stepped(s, id, c).rt == s.runs[id].rt
  {
    var run := s.runs[id];
    NextLedgers(run, Verdict(s.runtimes[run.rt]), s.pending < s.maxPending, CtxDone(s, run), c);
    NextLife(run, Verdict(s.runtimes[run.rt]), s.pending < s.maxPending, CtxDone(s, run), c);
  }

  lemma StepRuns(s: Sys, id: string, c: Choice)
    requires RunsOk(s) && CanStep(s, id, c)
    ensures RunsOk(Step(s, id, c)) && Stepped(s, id, c).rt == s.runs[id].rt
  {
    SteppedOk(s, id, c);
    RunsKept(s, Step(s, id, c), id, Stepped(s, id, c));
  }

  lemma StepTokens(s: Sys, id: string, c: Choice)
    requires TokensOk(s) && CanStep(s, id, c)
    ensures TokensOk(Step(s, id, c))
  {
    var run := s.runs[id];
    Member(id, Owing(s.runs));
    TokenFits(run.phase, Verdict(s.runtimes[run.rt]), s.pending < s.maxPending, CtxDone(s, run), c);
    TokensKept(s, Step(s, id, c), id, Stepped(s, id, c));
  }

  lemma StepSlots(s: Sys, id: string, c: Choice)
    requires SlotsOk(s) && CanStep(s, id, c)
    ensures SlotsOk(Step(s, id, c))
  {
    var run := s.runs[id];
    Member(id, InSlot(s.runs));
    SlotFits(run.phase, Verdict(s.runtimes[run.rt]), s.pending < s.maxPending, CtxDone(s, run), c);
    SlotsKept(s, Step(s, id, c), id, Stepped(s, id, c));
  }

  lemma StepGates(s: Sys, id: string, c: Choice)
    requires GatesOk(s) && CanStep(s, id, c) && Stepped(s, id, c).rt == s.runs[id].rt
    ensures GatesOk(Step(s, id, c))
  {
    var run := s.runs[id];
    Member(id, InGate(s.runs, run.rt));
    GateFits(run.phase, Verdict(s.runtimes[run.rt]), s.pending < s.maxPending, CtxDone(s, run), c);
    GatesKept(s, Step(s, id, c), id, Stepped(s, id, c));
  }

  lemma StepActive(s: Sys, id: string, c: Choice)
    requires RunsOk(s) && ActiveOk(s) && ClosedOk(s) && CanStep(s, id, c) && Stepped(s, id, c).rt == s.runs[id].rt
    ensures ActiveOk(Step(s, id, c)) && ClosedOk(Step(s, id, c))
  {
    var run, t := s.runs[id], Step(s, id, c);
    ActiveFits(s.runtimes[run.rt].active, run.phase, s.runtimes[run.rt], s.pending < s.maxPending, id, CtxDone(s, run), c);
    ActiveKept(s, t, id, Stepped(s, id, c));
  }

  lemma StepInv(s: Sys, id: string, c: Choice)
    requires Inv(s) && CanStep(s, id, c)
    ensures Inv(Step(s, id, c))
  {
    StepRuns(s, id, c);
    StepTokens(s, id, c);
    StepSlots(s, id, c);
    StepGates(s, id, c);
    StepActive(s, id, c);
    assert RegistryOk(Step(s, id, c));
  }

  /** A change of one run that leaves its phase and its holdings alone. */
  lemma QuietInv(s: Sys, id: string, run: Run)
    requires Inv(s) && id in s.runs && RunOk(run) && run.rt == s.runs[id].rt && run.phase == s.runs[id].phase
    ensures Inv(SetRun(s, id, run))
  {
    var t := SetRun(s, id, run);
    RunsKept(s, t, id, run);
    TokensKept(s, t, id, run);
    SlotsKept(s, t, id, run);
    GatesKept(s, t, id, run);
    ActiveKept(s, t, id, run);
  }

  lemma SubmitInv(s: Sys, id: string, sessionId: string)
    requires Inv(s) && id !in s.runs && sessionId in s.registry
    ensures Inv(SetRun(s, id, NewRun(s.registry[sessionId])))
  {
    var run := NewRun(s.registry[sessionId]);
    var t := SetRun(s, id, run);
    RunsKept(s, t, id, run);
    TokensKept(s, t, id, run);
    SlotsKept(s, t, id, run);
    GatesKept(s, t, id, run);
    ActiveKept(s, t, id, run);
  }

  lemma RegisterInv(s: Sys, sessionId: string, k: int, origin: Origin)
    requires Inv(s) && Accepts(s, sessionId, k)
    ensures Inv(Happen(s, Register(sessionId, k, origin)))
  {
    var t := Happen(s, Register(sessionId, k, origin));
    hide RunsOk, ActiveOk, GatesOk, TokensOk, SlotsOk, ClosedOk;
    if k in s.runtimes { SameRuntimes(s, t); } else { OneMore(s, t, k); }
  }

  lemma SameRuntimes(s: Sys, t: Sys)
    requires RunsOk(s) && ActiveOk(s) && GatesOk(s) && TokensOk(s) && SlotsOk(s) && ClosedOk(s)
    requires t.runs == s.runs && t.runtimes == s.runtimes && t.pending == s.pending && t.slots == s.slots
    requires t.maxRuns == s.maxRuns && t.maxPending == s.maxPending
    ensures RunsOk(t) && ActiveOk(t) && GatesOk(t) && TokensOk(t) && SlotsOk(t) && ClosedOk(t)
  {}

  lemma OneMore(s: Sys, t: Sys, k: int)
    requires RunsOk(s) && ActiveOk(s) && GatesOk(s) && TokensOk(s) && SlotsOk(s) && ClosedOk(s)
    requires t.runs == s.runs && t.pending == s.pending && t.slots == s.slots
    requires t.maxRuns == s.maxRuns && t.maxPending == s.maxPending && k !in s.runtimes && k in t.runtimes
    requires t.runtimes == s.runtimes[k := t.runtimes[k]]
    requires t.runtimes[k].gate == 0 && t.runtimes[k].active.None?
    ensures RunsOk(t) && ActiveOk(t) && GatesOk(t) && TokensOk(t) && SlotsOk(t) && ClosedOk(t)
  {
    NewGates(s, t, k);
  }

  /** Nobody is at the gate of a new runtime. */
  lemma NewGates(s: Sys, t: Sys, k: int)
    requires RunsOk(s) && GatesOk(s) && k !in s.runtimes && t.runs == s.runs
    requires k in t.runtimes && t.runtimes[k].gate == 0 && t.runtimes == s.runtimes[k := t.runtimes[k]]
    ensures GatesOk(t)
  {
    assert InGate(t.runs, k) == {};
    forall l | l in s.runtimes ensures InGate(t.runs, l) == InGate(s.runs, l) {}
  }

  lemma HappenInv(s: Sys, e: Event)
    requires Inv(s) && Enabled(s, e)
    ensures Inv(Happen(s, e))
  {
    match e {
      case Advance(id, c) => StepInv(s, id, c);
      case Submit(id, sessionId) => if !s.closed && sessionId in s.registry { SubmitInv(s, id, sessionId); }
      case Register(sessionId, k, origin) => if Accepts(s, sessionId, k) { RegisterInv(s, sessionId, k, origin); }
      case _ => OtherInv(s, e);
    }
  }

  lemma OtherInv(s: Sys, e: Event)
    requires Inv(s) && Enabled(s, e) && !e.Advance? && !e.Submit? && !e.Register?
    ensures Inv(Happen(s, e))
  {
    match e {
      case Mark(id, st) => QuietInv(s, id, Transition(s.runs[id], st));
      case CancelRun(sessionId, id) => if Finds(s, sessionId, id) { QuietInv(s, id, CancelOf(s.runs[id])); }
      case CancelHandle(id) => QuietInv(s, id, CancelOf(s.runs[id]));
      case BindSession(k, bound) => RuntimeInv(s, k, s.runtimes[k].(bound := bound));
      case Retire(k) => if s.runtimes[k].active.None? { RuntimeInv(s, k, s.runtimes[k].(retired := true)); }
      case Archive(k, commit) =>
        if s.runtimes[k].active.None? {
          var t := SetRuntime(s, k, s.runtimes[k].(archived := Answer(commit, k in s.marked)));
          RuntimeInv(s, k, t.runtimes[k]);
          FlagInv(t, Happen(s, e));
        }
      case Remove(_) => FlagInv(s, Happen(s, e));
      case Close => FlagInv(s, Happen(s, e));
      case CancelHost => FlagInv(s, Happen(s, e));
    }
  }

  lemma FlagInv(s: Sys, t: Sys)
    requires Inv(s) && t.runs == s.runs && t.runtimes == s.runtimes && t.pending == s.pending && t.slots == s.slots
    requires t.maxRuns == s.maxRuns && t.maxPending == s.maxPending
    requires forall x :: x in t.registry ==> x in s.registry && t.registry[x] == s.registry[x]
    ensures Inv(t)
  {}

  lemma RuntimeInv(s: Sys, k: int, rt: Runtime)
    requires Inv(s) && k in s.runtimes && rt.active == s.runtimes[k].active && rt.gate == s.runtimes[k].gate
    requires rt.retired ==> rt.active.None?
    ensures Inv(SetRuntime(s, k, rt))
  {}

  lemma StartInv(maxRuns: nat, maxPending: nat)
    ensures Inv(Start(maxRuns, maxPending))
  {
    var s := Start(maxRuns, maxPending);
    assert Owing(s.runs) == {} && InSlot(s.runs) == {};
  }

  /** Over every interleaving the invariant holds. */
  lemma {:induction false} RunInv(states: seq<Sys>, events: seq<Event>, n: nat)
    requires IsRun(states, events) && n < |states|
    ensures Inv(states[n])
  {
    hide Inv, Happen, Enabled;
    if n == 0 {
      StartInv(states[0].maxRuns, states[0].maxPending);
      assert states[0] == Start(states[0].maxRuns, states[0].maxPending);
    } else {
      RunInv(states, events, n - 1);
      assert StepAt(states, events, n - 1);
      HappenInv(states[n - 1], events[n - 1]);
    }
  }
}

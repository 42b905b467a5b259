/** Approvals of tool calls (ai-runtime/agent/approval.go, ai-runtime/agent/session.go:252-291,
    ai-runtime/hitl/channel_decision_provider.go) as steps of any number of runs: the agent asks and
    waits for a decision, the token stream waits for a client, clients resolve, and timers and
    cancellations may cut in at any point. */
module ApprovalProtocol {
  import opened Events

  datatype Decision = Decision(interruptId: string, approves: bool)

  function Reject(id: string): Decision {
    Decision(id, false)
  }

  /** An entry of the manager; decide is the channel of capacity one. */
  datatype Entry = Entry(request: string, resolved: bool, decide: Option<Decision>)

  datatype Agent = Idle | Asking(request: string)

  datatype Stream = Free | Deciding(entry: nat) | Handing(decision: Decision)

  /** tokens: interrupts on their way to the stream; buffer: the decisions channel of capacity one. */
  datatype Run = Run(agent: Agent, tokens: seq<string>, stream: Stream, buffer: Option<Decision>)

  datatype Outcome = Outcome(run: string, request: string, decision: Decision)

  datatype Accepted = Accepted(entry: nat, decision: Decision)

  /** pending: the manager's table; used: the interrupt ids given out so far. */
  datatype State = State(pending: map<string, nat>, entries: map<nat, Entry>, nextEntry: nat, runs: map<string, Run>,
                         used: set<string>, accepted: seq<Accepted>, outcomes: seq<Outcome>)

  datatype Event =
    | Join(run: string)
    | Ask(run: string, request: string)
    | LoseToken(run: string)
    | Register(run: string, expired: bool)
    | Resolve(request: string, approves: bool)
    | Sweep(gone: set<string>)
    | WaitEnds(run: string)
    | WaitDecided(run: string)
    | Send(run: string)
    | DropSend(run: string)
    | Receive(run: string)
    | AskEnds(run: string)

  predicate Enabled(s: State, e: Event) {
    match e
    case Join(r) => r !in s.runs
    case Ask(r, q) => r in s.runs && s.runs[r].agent.Idle? && q !in s.used
    case LoseToken(r) => r in s.runs && s.runs[r].tokens != []
    case Register(r, _) => r in s.runs && s.runs[r].stream.Free? && s.runs[r].tokens != []
    case Resolve(_, _) => true
    case Sweep(_) => true
    case WaitEnds(r) => r in s.runs && s.runs[r].stream.Deciding? && s.runs[r].stream.entry in s.entries
    case WaitDecided(r) =>
      && r in s.runs && s.runs[r].stream.Deciding? && s.runs[r].stream.entry in s.entries
      && s.entries[s.runs[r].stream.entry].decide.Some?
    case Send(r) => r in s.runs && s.runs[r].stream.Handing? && s.runs[r].buffer.None?
    case DropSend(r) => r in s.runs && s.runs[r].stream.Handing?
    case Receive(r) => r in s.runs && s.runs[r].agent.Asking? && s.runs[r].buffer.Some?
    case AskEnds(r) => r in s.runs && s.runs[r].agent.Asking?
  }

  function SetRun(s: State, r: string, run: Run): State {
    s.(runs := s.runs[r := run])
  }

  /** The first lock section of Wait: a known request is rejected, a new one gets an entry; one that
      has already expired is closed at once. */
  function Registered(s: State, r: string, expired: bool): State
    requires r in s.runs && s.runs[r].tokens != []
  {
    var run := s.runs[r];
    var q := run.tokens[0];
    var rest := run.(tokens := run.tokens[1..]);
    if q in s.pending then SetRun(s, r, rest.(stream := Handing(Reject(q))))
    else
      SetRun(s, r, rest.(stream := if expired then Handing(Reject(q)) else Deciding(s.nextEntry)))
      .(pending := s.pending[q := s.nextEntry],
        entries := s.entries[s.nextEntry := Entry(q, expired, None)],
        nextEntry := s.nextEntry + 1)
  }

  /** Whether a Resolve of this request would be accepted. */
  predicate Open(s: State, q: string) {
    q in s.pending && s.pending[q] in s.entries && !s.entries[s.pending[q]].resolved
  }

  function Happen(s: State, e: Event): State
    requires Enabled(s, e)
  {
    match e
    case Join(r) => SetRun(s, r, Run(Idle, [], Free, None))
    case Ask(r, q) =>
      SetRun(s, r, s.runs[r].(agent := Asking(q), tokens := s.runs[r].tokens + [q])).(used := s.used + {q})
    case LoseToken(r) => SetRun(s, r, s.runs[r].(tokens := s.runs[r].tokens[1..]))
    case Register(r, expired) => Registered(s, r, expired)
    case Resolve(q, approves) =>
      if !Open(s, q) then s
      else
        var n, d := s.pending[q], Decision(q, approves);
        s.(entries := s.entries[n := s.entries[n].(resolved := true, decide := Some(d))],
           accepted := s.accepted + [Accepted(n, d)])
    case Sweep(gone) => s.(pending := s.pending - gone)
    case WaitEnds(r) =>
      var n := s.runs[r].stream.entry;
      SetRun(s, r, s.runs[r].(stream := Handing(Reject(s.entries[n].request))))
      .(entries := s.entries[n := s.entries[n].(resolved := true)])
    case WaitDecided(r) =>
      var n := s.runs[r].stream.entry;
      SetRun(s, r, s.runs[r].(stream := Handing(s.entries[n].decide.value)))
      .(entries := s.entries[n := s.entries[n].(decide := None)])
    case Send(r) => SetRun(s, r, s.runs[r].(stream := Free, buffer := Some(s.runs[r].stream.decision)))
    case DropSend(r) => SetRun(s, r, s.runs[r].(stream := Free))
    case Receive(r) =>
      var d := s.runs[r].buffer.value;
      if d.interruptId != s.runs[r].agent.request then SetRun(s, r, s.runs[r].(buffer := None))
      else
        SetRun(s, r, s.runs[r].(buffer := None, agent := Idle))
        .(outcomes := s.outcomes + [Outcome(r, s.runs[r].agent.request, d)])
    case AskEnds(r) =>
      var q := s.runs[r].agent.request;
      SetRun(s, r, s.runs[r].(agent := Idle)).(outcomes := s.outcomes + [Outcome(r, q, Reject(q))])
  }

  ghost predicate StepAt(states: seq<State>, events: seq<Event>, n: nat) {
    n < |events| && n + 1 < |states| && Enabled(states[n], events[n]) && states[n + 1] == Happen(states[n], events[n])
  }

  ghost predicate IsRun(states: seq<State>, events: seq<Event>) {
    && |states| == |events| + 1 && states[0] == State(map[], map[], 0, map[], {}, [], [])
    && forall n :: 0 <= n < |events| ==> StepAt(states, events, n)
  }

  // ---------------------------------------------------------------- the invariant

  /** Some Resolve accepted d for a request of its id. */
  predicate WasAccepted(s: State, d: Decision) {
    exists k :: 0 <= k < |s.accepted| && s.accepted[k].decision == d
  }

  /** A decision on its way: a rejection, or one a Resolve accepted. */
  predicate Legit(s: State, d: Decision) {
    d.approves ==> WasAccepted(s, d)
  }

  predicate EntryOk(s: State, n: nat) {
    && n in s.entries && n < s.nextEntry
    && (s.entries[n].decide.Some? ==>
          s.entries[n].resolved && s.entries[n].decide.value.interruptId == s.entries[n].request && Legit(s, s.entries[n].decide.value))
  }

  predicate RunOk(s: State, r: string) {
    && r in s.runs
    && (s.runs[r].stream.Handing? ==> Legit(s, s.runs[r].stream.decision))
    && (s.runs[r].buffer.Some? ==> Legit(s, s.runs[r].buffer.value))
  }

  /** A tool call was answered by a decision of its own id; an approval was accepted by a Resolve. */
  predicate OutcomeOk(s: State, o: Outcome) {
    o.decision.interruptId == o.request && Legit(s, o.decision)
  }

  /** Each entry was won at most once, and whoever won it closed it. */
  predicate WonOnce(s: State) {
    && (forall k :: 0 <= k < |s.accepted| ==>
          s.accepted[k].entry in s.entries && s.entries[s.accepted[k].entry].resolved
          && s.accepted[k].decision.interruptId == s.entries[s.accepted[k].entry].request)
    && (forall k, l :: 0 <= k < l < |s.accepted| ==> s.accepted[k].entry != s.accepted[l].entry)
  }

  predicate PendingOk(s: State) {
    forall q :: q in s.pending ==> s.pending[q] in s.entries && s.entries[s.pending[q]].request == q
  }

  predicate Inv(s: State) {
    && (forall n :: n in s.entries ==> EntryOk(s, n)) && (forall r :: r in s.runs ==> RunOk(s, r))
    && (forall k :: 0 <= k < |s.outcomes| ==> OutcomeOk(s, s.outcomes[k])) && WonOnce(s)
    && PendingOk(s)
  }

  lemma AcceptedGrows(s: State, t: State, d: Decision)
    requires s.accepted <= t.accepted && Legit(s, d)
    ensures Legit(t, d)
  {
    if d.approves {
      var k :| 0 <= k < |s.accepted| && s.accepted[k].decision == d;
      assert t.accepted[k].decision == d;
    }
  }

  lemma ResolveInv(s: State, q: string, approves: bool)
    requires Inv(s) && Open(s, q)
    ensures Inv(Happen(s, Resolve(q, approves)))
  {
    var t := Happen(s, Resolve(q, approves));
    var n, d := s.pending[q], Decision(q, approves);
    assert t.accepted[|s.accepted|] == Accepted(n, d);
    forall m | m in t.entries ensures EntryOk(t, m) {
      assert EntryOk(s, m);
      if m != n && s.entries[m].decide.Some? { AcceptedGrows(s, t, s.entries[m].decide.value); }
    }
    forall r | r in t.runs ensures RunOk(t, r) {
      assert RunOk(s, r);
      if s.runs[r].stream.Handing? { AcceptedGrows(s, t, s.runs[r].stream.decision); }
      if s.runs[r].buffer.Some? { AcceptedGrows(s, t, s.runs[r].buffer.value); }
    }
    forall k | 0 <= k < |t.outcomes| ensures OutcomeOk(t, t.outcomes[k]) {
      assert OutcomeOk(s, s.outcomes[k]);
      AcceptedGrows(s, t, s.outcomes[k].decision);
    }
    assert EntryOk(s, n);
    assert WonOnce(t);
  }

  lemma OtherEntry(s: State, e: Event, n: nat)
    requires Inv(s) && Enabled(s, e) && !e.Resolve? && n in Happen(s, e).entries
    ensures EntryOk(Happen(s, e), n)
    ensures n in s.entries ==> Happen(s, e).entries[n].request == s.entries[n].request
    ensures n in s.entries && s.entries[n].resolved ==> Happen(s, e).entries[n].resolved
  {
    if n in s.entries { assert EntryOk(s, n); }
    FreshEntry(s);
  }

  lemma FreshEntry(s: State)
    requires Inv(s)
    ensures s.nextEntry !in s.entries
  {
    assert s.nextEntry in s.entries ==> EntryOk(s, s.nextEntry);
  }

  lemma OtherRun(s: State, e: Event, r: string)
    requires Inv(s) && Enabled(s, e) && !e.Resolve? && r in Happen(s, e).runs
    ensures RunOk(Happen(s, e), r)
  {
    if r in s.runs { assert RunOk(s, r); }
    if e.WaitDecided? && e.run == r { assert EntryOk(s, s.runs[r].stream.entry); }
  }

  lemma OtherOutcome(s: State, e: Event, k: nat)
    requires Inv(s) && Enabled(s, e) && !e.Resolve? && k < |Happen(s, e).outcomes|
    ensures OutcomeOk(Happen(s, e), Happen(s, e).outcomes[k])
  {
    if k < |s.outcomes| {
      assert OutcomeOk(s, s.outcomes[k]);
    } else if e.Receive? {
      assert RunOk(s, e.run);
    }
  }

  /** Steps that accept nothing. */
  lemma OtherInv(s: State, e: Event)
    requires Inv(s) && Enabled(s, e) && !e.Resolve?
    ensures Inv(Happen(s, e))
  {
    var t := Happen(s, e);
    forall n | n in t.entries ensures EntryOk(t, n) { OtherEntry(s, e, n); }
    forall r | r in t.runs ensures RunOk(t, r) { OtherRun(s, e, r); }
    forall k | 0 <= k < |t.outcomes| ensures OutcomeOk(t, t.outcomes[k]) { OtherOutcome(s, e, k); }
    OtherTables(s, e);
  }

  lemma OtherTables(s: State, e: Event)
    requires Inv(s) && Enabled(s, e) && !e.Resolve?
    ensures WonOnce(Happen(s, e)) && PendingOk(Happen(s, e))
  {
    var t := Happen(s, e);
    FreshEntry(s);
    assert t.accepted == s.accepted;
    forall k | 0 <= k < |t.accepted|
      ensures t.accepted[k].entry in t.entries && t.entries[t.accepted[k].entry].resolved
        && t.accepted[k].decision.interruptId == t.entries[t.accepted[k].entry].request
    {
      OtherEntry(s, e, s.accepted[k].entry);
    }
    forall q | q in t.pending ensures t.pending[q] in t.entries && t.entries[t.pending[q]].request == q {
      if q in s.pending { OtherEntry(s, e, s.pending[q]); }
    }
  }

  lemma {:induction false} RunInv(states: seq<State>, events: seq<Event>, n: nat)
    requires IsRun(states, events) && n < |states|
    ensures Inv(states[n])
  {
    if n > 0 {
      RunInv(states, events, n - 1);
      assert StepAt(states, events, n - 1);
      var s, e := states[n - 1], events[n - 1];
      if e.Resolve? {
        if Open(s, e.request) { ResolveInv(s, e.request, e.approves); }
      } else {
        OtherInv(s, e);
      }
    }
  }

  // ---------------------------------------------------------------- what follows

  /** Whatever races with whatever: a tool call goes through only by a decision with its own interrupt
      id that a Resolve accepted, so a stale decision never answers a later interrupt. */
  lemma ApprovalIsGenuine(states: seq<State>, events: seq<Event>, n: nat, k: nat)
    requires IsRun(states, events) && n < |states| && k < |states[n].outcomes|
    ensures var s, o := states[n], states[n].outcomes[k];
      && o.decision.interruptId == o.request
      && (o.decision.approves ==>
            exists l :: 0 <= l < |s.accepted| && s.accepted[l].decision == o.decision
              && s.accepted[l].entry in s.entries && s.entries[s.accepted[l].entry].request == o.request)
  {
    RunInv(states, events, n);
    var s, o := states[n], states[n].outcomes[k];
    assert OutcomeOk(s, o);
    if o.decision.approves {
      var l :| 0 <= l < |s.accepted| && s.accepted[l].decision == o.decision;
      assert s.accepted[l].entry in s.entries && s.entries[s.accepted[l].entry].request == o.request;
    }
  }

  /** At most one Resolve wins an entry, and its send never finds the channel full. */
  lemma ResolveWinsOnce(states: seq<State>, events: seq<Event>, n: nat, q: string, k: nat, l: nat)
    requires IsRun(states, events) && n < |states|
    ensures Open(states[n], q) ==> states[n].entries[states[n].pending[q]].decide.None?
    ensures k < l < |states[n].accepted| ==> states[n].accepted[k].entry != states[n].accepted[l].entry
  {
    RunInv(states, events, n);
    if Open(states[n], q) { assert EntryOk(states[n], states[n].pending[q]); }
  }
}

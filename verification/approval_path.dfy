/** The way of a decision: from the Resolve that was accepted to the answer of the tool call. */
module ApprovalPath {
  import opened Events
  import opened ApprovalProtocol

  // ---------------------------------------------------------------- accepted decisions

  /** Step i resolved the entry n with d, and was the first to do so. */
  ghost predicate Resolves(states: seq<State>, events: seq<Event>, i: nat, n: nat, d: Decision) {
    && i < |events| && i < |states| && events[i] == Resolve(d.interruptId, d.approves)
    && d.interruptId in states[i].pending && states[i].pending[d.interruptId] == n
    && n in states[i].entries && !states[i].entries[n].resolved
  }

  predicate WasAcceptedFor(s: State, n: nat, d: Decision) {
    exists k :: 0 <= k < |s.accepted| && s.accepted[k] == Accepted(n, d)
  }

  /** Everything accepted was accepted by such a step. */
  ghost predicate AllResolved(states: seq<State>, events: seq<Event>, n: nat)
    requires n < |states|
  {
    forall k :: 0 <= k < |states[n].accepted| ==> ResolvedBefore(states, events, n, states[n].accepted[k])
  }

  ghost predicate ResolvedBefore(states: seq<State>, events: seq<Event>, n: nat, a: Accepted) {
    exists i :: 0 <= i < n && Resolves(states, events, i, a.entry, a.decision)
  }

  lemma StepAccepts(s: State, e: Event)
    requires Enabled(s, e)
    ensures s.accepted <= Happen(s, e).accepted <= s.accepted + Happen(s, e).accepted[|s.accepted|..]
    ensures |Happen(s, e).accepted| <= |s.accepted| + 1
    ensures |Happen(s, e).accepted| == |s.accepted| + 1 <==> e.Resolve? && Open(s, e.request)
    ensures e.Resolve? && Open(s, e.request) ==>
      Happen(s, e).accepted[|s.accepted|] == Accepted(s.pending[e.request], Decision(e.request, e.approves))
  {}

  /** A decision is accepted exactly by a Resolve of an entry that is registered and not yet settled. */
  lemma {:induction false} AcceptedBy(states: seq<State>, events: seq<Event>, n: nat)
    requires IsRun(states, events) && n < |states|
    ensures AllResolved(states, events, n)
    ensures forall i :: 0 <= i < n && events[i].Resolve? && Open(states[i], events[i].request) ==>
      WasAcceptedFor(states[n], states[i].pending[events[i].request], Decision(events[i].request, events[i].approves))
  {
    if n > 0 {
      assert StepAt(states, events, n - 1);
      AcceptedBy(states, events, n - 1);
      var s, e, t := states[n - 1], events[n - 1], states[n];
      StepAccepts(s, e);
      forall k | 0 <= k < |t.accepted| ensures ResolvedBefore(states, events, n, t.accepted[k]) {
        if k < |s.accepted| {
          assert ResolvedBefore(states, events, n - 1, s.accepted[k]);
          var i :| 0 <= i < n - 1 && Resolves(states, events, i, s.accepted[k].entry, s.accepted[k].decision);
          assert Resolves(states, events, i, t.accepted[k].entry, t.accepted[k].decision);
        } else {
          assert Resolves(states, events, n - 1, t.accepted[k].entry, t.accepted[k].decision);
        }
      }
      forall i | 0 <= i < n && events[i].Resolve? && Open(states[i], events[i].request)
        ensures WasAcceptedFor(t, states[i].pending[events[i].request], Decision(events[i].request, events[i].approves))
      {
        if i == n - 1 {
          assert t.accepted[|s.accepted|] == Accepted(s.pending[e.request], Decision(e.request, e.approves));
        } else {
          var k :| 0 <= k < |s.accepted| &&
            s.accepted[k] == Accepted(states[i].pending[events[i].request], Decision(events[i].request, events[i].approves));
          assert t.accepted[k] == s.accepted[k];
        }
      }
    }
  }

  // ---------------------------------------------------------------- what waits in a channel

  /** What waits in the channel of an entry was accepted for that entry. */
  ghost predicate Waits(s: State) {
    forall n :: n in s.entries && s.entries[n].decide.Some? ==> WasAcceptedFor(s, n, s.entries[n].decide.value)
  }

  lemma StepWaits(s: State, e: Event)
    requires Enabled(s, e) && Waits(s) && s.nextEntry !in s.entries
    ensures Waits(Happen(s, e))
  {
    var t := Happen(s, e);
    StepAccepts(s, e);
    forall n | n in t.entries && t.entries[n].decide.Some? ensures WasAcceptedFor(t, n, t.entries[n].decide.value) {
      if n in s.entries && s.entries[n].decide == t.entries[n].decide {
        var k :| 0 <= k < |s.accepted| && s.accepted[k] == Accepted(n, s.entries[n].decide.value);
        assert t.accepted[k] == s.accepted[k];
      } else {
        assert t.accepted[|s.accepted|] == Accepted(n, t.entries[n].decide.value);
      }
    }
  }

  lemma {:induction false} RunWaits(states: seq<State>, events: seq<Event>, n: nat)
    requires IsRun(states, events) && n < |states|
    ensures Waits(states[n])
  {
    if n > 0 {
      assert StepAt(states, events, n - 1);
      RunWaits(states, events, n - 1);
      RunInv(states, events, n - 1);
      FreshEntry(states[n - 1]);
      StepWaits(states[n - 1], events[n - 1]);
    }
  }

  // ---------------------------------------------------------------- the way of a decision

  /** Wait returns what was decided: when it takes the decision branch, the stream hands on a decision that
      a Resolve was accepted with for the very entry it waited on. */
  lemma WaitHandsOn(states: seq<State>, events: seq<Event>, i: nat, r: string)
    requires IsRun(states, events) && i < |events| && events[i] == WaitDecided(r)
    ensures r in states[i].runs && states[i].runs[r].stream.Deciding? && r in states[i + 1].runs
    ensures var n, stream := states[i].runs[r].stream.entry, states[i + 1].runs[r].stream;
      && stream.Handing? && WasAcceptedFor(states[i], n, stream.decision)
      && n in states[i].entries && stream.decision.interruptId == states[i].entries[n].request
  {
    assert StepAt(states, events, i);
    RunWaits(states, events, i);
    RunInv(states, events, i);
    assert EntryOk(states[i], states[i].runs[r].stream.entry);
  }

  /** When it takes another branch (cancelled, expired) it hands on a rejection. */
  lemma WaitRejects(states: seq<State>, events: seq<Event>, i: nat, r: string)
    requires IsRun(states, events) && i < |events| && events[i] == WaitEnds(r)
    ensures r in states[i].runs && states[i].runs[r].stream.Deciding? && r in states[i + 1].runs
    ensures var n, stream := states[i].runs[r].stream.entry, states[i + 1].runs[r].stream;
      && n in states[i].entries && stream.Handing? && !stream.decision.approves
      && stream.decision.interruptId == states[i].entries[n].request
  {
    assert StepAt(states, events, i);
  }

  /** The stream of r neither sent nor dropped anything in these steps. */
  predicate HoldsOn(events: seq<Event>, i: nat, j: nat, r: string) {
    j <= |events| && forall k :: i <= k < j ==> events[k] != Send(r) && events[k] != DropSend(r)
  }

  /** The agent of r took nothing from the decisions channel in these steps. */
  predicate Untaken(events: seq<Event>, i: nat, j: nat, r: string) {
    j <= |events| && forall k :: i <= k < j ==> events[k] != Receive(r)
  }

  lemma StepHolds(s: State, e: Event, r: string)
    requires Enabled(s, e) && r in s.runs
    ensures r in Happen(s, e).runs
    ensures s.runs[r].stream.Handing? && e != Send(r) && e != DropSend(r) ==> Happen(s, e).runs[r].stream == s.runs[r].stream
    ensures s.runs[r].buffer.Some? && e != Receive(r) ==> Happen(s, e).runs[r].buffer == s.runs[r].buffer
    ensures e == Send(r) ==> s.runs[r].stream.Handing? && Happen(s, e).runs[r].buffer == Some(s.runs[r].stream.decision)
  {}

  lemma {:induction false} StreamHolds(states: seq<State>, events: seq<Event>, i: nat, j: nat, r: string)
    requires IsRun(states, events) && i <= j < |states| && HoldsOn(events, i, j, r)
    requires r in states[i].runs && states[i].runs[r].stream.Handing?
    ensures r in states[j].runs && states[j].runs[r].stream == states[i].runs[r].stream
  {
    if i < j {
      StreamHolds(states, events, i, j - 1, r);
      assert StepAt(states, events, j - 1);
      StepHolds(states[j - 1], events[j - 1], r);
    }
  }

  lemma {:induction false} BufferHolds(states: seq<State>, events: seq<Event>, i: nat, j: nat, r: string)
    requires IsRun(states, events) && i <= j < |states| && Untaken(events, i, j, r)
    requires r in states[i].runs && states[i].runs[r].buffer.Some?
    ensures r in states[j].runs && states[j].runs[r].buffer == states[i].runs[r].buffer
  {
    if i < j {
      BufferHolds(states, events, i, j - 1, r);
      assert StepAt(states, events, j - 1);
      StepHolds(states[j - 1], events[j - 1], r);
    }
  }

  /** What the agent does with what it takes: a decision for another interrupt is drained, one for its own
      is the answer of the call, as it is. */
  lemma ReceiveAnswers(s: State, r: string)
    requires Enabled(s, Receive(r))
    ensures var t, q, d := Happen(s, Receive(r)), s.runs[r].agent.request, s.runs[r].buffer.value;
      && r in t.runs && t.runs[r].buffer.None?
      && (d.interruptId == q ==> t.outcomes == s.outcomes + [Outcome(r, q, d)] && t.runs[r].agent.Idle?)
      && (d.interruptId != q ==> t.outcomes == s.outcomes && t.runs[r].agent == s.runs[r].agent)
  {}

  /** The call of r that waits in t is answered in t' by d, accepted for the entry that Wait was on in s. */
  ghost predicate Arrives(s: State, t: State, t': State, r: string, d: Decision)
    requires r in s.runs && s.runs[r].stream.Deciding? && r in t.runs && t.runs[r].agent.Asking?
  {
    && WasAcceptedFor(s, s.runs[r].stream.entry, d)
    && t'.outcomes == t.outcomes + if d.interruptId == t.runs[r].agent.request then [Outcome(r, t.runs[r].agent.request, d)] else []
  }

  /** From Resolve to tool call: Wait returns a decision, the stream sends it, the agent takes it. The call
      is answered by a decision that a Resolve was accepted with for the entry Wait was on, approval or
      rejection; and if the agent by then asks something else, it is not answered by it. */
  lemma {:induction false} DecisionArrives(states: seq<State>, events: seq<Event>, i: nat, j: nat, k: nat, r: string)
    returns (d: Decision)
    requires IsRun(states, events) && i < j < k < |events|
    requires events[i] == WaitDecided(r) && events[j] == Send(r) && events[k] == Receive(r)
    requires HoldsOn(events, i + 1, j, r) && Untaken(events, j + 1, k, r)
    ensures r in states[i].runs && states[i].runs[r].stream.Deciding? && r in states[k].runs && states[k].runs[r].agent.Asking?
    ensures Arrives(states[i], states[k], states[k + 1], r, d)
  {
    WaitHandsOn(states, events, i, r);
    StreamHolds(states, events, i + 1, j, r);
    assert StepAt(states, events, j) && StepAt(states, events, k);
    StepHolds(states[j], events[j], r);
    BufferHolds(states, events, j + 1, k, r);
    ReceiveAnswers(states[k], r);
    d := states[i + 1].runs[r].stream.decision;
  }

  // ---------------------------------------------------------------- the table

  /** Step i registered q: it was the next interrupt of its run and not in the table. */
  ghost predicate Registers(states: seq<State>, events: seq<Event>, i: nat, q: string) {
    && i < |events| && i < |states| && events[i].Register? && events[i].run in states[i].runs
    && states[i].runs[events[i].run].tokens != [] && states[i].runs[events[i].run].tokens[0] == q && q !in states[i].pending
  }

  ghost predicate Unswept(events: seq<Event>, i: nat, n: nat, q: string) {
    n <= |events| && forall j :: i <= j < n ==> !(events[j].Sweep? && q in events[j].gone)
  }

  lemma StepTable(s: State, e: Event, q: string)
    requires Enabled(s, e)
    ensures q in Happen(s, e).pending <==> Registers([s, Happen(s, e)], [e], 0, q) || (q in s.pending && !(e.Sweep? && q in e.gone))
    ensures q in s.pending && q in Happen(s, e).pending ==> Happen(s, e).pending[q] == s.pending[q]
  {}

  /** A request is in the table exactly from its registration until a sweep removes it, under one entry. */
  lemma {:induction false} TableBy(states: seq<State>, events: seq<Event>, n: nat, q: string)
    requires IsRun(states, events) && n < |states|
    ensures q in states[n].pending <==> exists i :: 0 <= i < n && Registers(states, events, i, q) && Unswept(events, i + 1, n, q)
  {
    if n > 0 {
      assert StepAt(states, events, n - 1);
      TableBy(states, events, n - 1, q);
      var s, e := states[n - 1], events[n - 1];
      StepTable(s, e, q);
      assert Registers([s, states[n]], [e], 0, q) <==> Registers(states, events, n - 1, q);
      assert Unswept(events, n, n, q);
      if i :| 0 <= i < n - 1 && Registers(states, events, i, q) && Unswept(events, i + 1, n - 1, q) && !(e.Sweep? && q in e.gone) {
        assert Unswept(events, i + 1, n, q);
      }
      if i :| 0 <= i < n && Registers(states, events, i, q) && Unswept(events, i + 1, n, q) {
        assert i < n - 1 ==> Unswept(events, i + 1, n - 1, q) && !(e.Sweep? && q in e.gone);
      }
    }
  }

  /** What Wait does on entry: it rejects an interrupt that is known or has expired, and waits for any
      other on a new, open entry. */
  lemma WaitEnters(states: seq<State>, events: seq<Event>, i: nat, r: string, expired: bool)
    requires IsRun(states, events) && i < |events| && events[i] == Register(r, expired)
    ensures r in states[i].runs && states[i].runs[r].tokens != [] && r in states[i + 1].runs
    ensures var s, t, q := states[i], states[i + 1], states[i].runs[r].tokens[0];
      && t.runs[r].tokens == s.runs[r].tokens[1..]
      && (q in s.pending || expired ==> t.runs[r].stream == Handing(Decision(q, false)))
      && (q !in s.pending && !expired ==>
            && t.runs[r].stream.Deciding?
            && var n := t.runs[r].stream.entry;
               n !in s.entries && n in t.entries && t.entries[n] == Entry(q, false, None) && q in t.pending && t.pending[q] == n && Open(t, q))
  {
    assert StepAt(states, events, i);
    RunInv(states, events, i);
    FreshEntry(states[i]);
  }

  /** A decision that was sent or dropped leaves the stream free for the next interrupt; dropping it puts
      nothing into the channel. */
  lemma SendFrees(states: seq<State>, events: seq<Event>, i: nat, r: string)
    requires IsRun(states, events) && i < |events| && (events[i] == Send(r) || events[i] == DropSend(r))
    ensures r in states[i].runs && states[i].runs[r].stream.Handing? && r in states[i + 1].runs && states[i + 1].runs[r].stream.Free?
    ensures events[i] == DropSend(r) ==> states[i + 1].runs[r].buffer == states[i].runs[r].buffer
  {
    assert StepAt(states, events, i);
  }

  // ---------------------------------------------------------------- every call is answered once

  function Asks(events: seq<Event>, r: string): nat {
    if events == [] then 0
    else
      var last := events[|events| - 1];
      Asks(events[..|events| - 1], r) + if last.Ask? && last.run == r then 1 else 0
  }

  function Answers(outcomes: seq<Outcome>, r: string): nat {
    if outcomes == [] then 0
    else Answers(outcomes[..|outcomes| - 1], r) + if outcomes[|outcomes| - 1].run == r then 1 else 0
  }

  lemma {:induction false} AnswersSnoc(outcomes: seq<Outcome>, o: Outcome, r: string)
    ensures Answers(outcomes + [o], r) == Answers(outcomes, r) + if o.run == r then 1 else 0
  {
    assert (outcomes + [o])[..|outcomes|] == outcomes;
  }

  predicate Waiting(s: State, r: string) {
    r in s.runs && s.runs[r].agent.Asking?
  }

  lemma StepAnswers(s: State, e: Event, r: string)
    requires Enabled(s, e)
    ensures Answers(Happen(s, e).outcomes, r) + (if Waiting(Happen(s, e), r) then 1 else 0)
      == Answers(s.outcomes, r) + (if Waiting(s, r) then 1 else 0) + if e.Ask? && e.run == r then 1 else 0
    ensures e == AskEnds(r) ==>
      Waiting(s, r) && Happen(s, e).outcomes == s.outcomes + [Outcome(r, s.runs[r].agent.request, Reject(s.runs[r].agent.request))]
  {
    if |Happen(s, e).outcomes| > |s.outcomes| {
      AnswersSnoc(s.outcomes, Happen(s, e).outcomes[|s.outcomes|], r);
      assert Happen(s, e).outcomes == s.outcomes + [Happen(s, e).outcomes[|s.outcomes|]];
    }
  }

  /** Every call that was asked about is answered exactly once, or is still waiting. */
  lemma {:induction false} AnsweredOnce(states: seq<State>, events: seq<Event>, n: nat, r: string)
    requires IsRun(states, events) && n < |states|
    ensures Asks(events[..n], r) == Answers(states[n].outcomes, r) + if Waiting(states[n], r) then 1 else 0
  {
    if n > 0 {
      assert StepAt(states, events, n - 1);
      AnsweredOnce(states, events, n - 1, r);
      StepAnswers(states[n - 1], events[n - 1], r);
      assert events[..n][..n - 1] == events[..n - 1];
    }
  }

  lemma StaysClosed(s: State, e: Event, n: nat)
    requires Enabled(s, e) && n in s.entries && n < s.nextEntry
    ensures n in Happen(s, e).entries && n < Happen(s, e).nextEntry
    ensures s.entries[n].resolved ==> Happen(s, e).entries[n].resolved
  {}

  /** Once Wait gave up on an entry nothing is accepted for it any more. */
  lemma {:induction false} GivenUpIsClosed(states: seq<State>, events: seq<Event>, i: nat, j: nat, r: string)
    requires IsRun(states, events) && i < j < |states| && events[i] == WaitEnds(r)
    ensures r in states[i].runs && states[i].runs[r].stream.Deciding?
    ensures var n := states[i].runs[r].stream.entry;
      && n in states[j].entries && n < states[j].nextEntry && states[j].entries[n].resolved
      && (forall q :: q in states[j].pending && states[j].pending[q] == n ==> !Open(states[j], q))
  {
    assert StepAt(states, events, j - 1);
    if i == j - 1 {
      RunInv(states, events, i);
      assert EntryOk(states[i], states[i].runs[r].stream.entry);
    } else {
      GivenUpIsClosed(states, events, i, j - 1, r);
      StaysClosed(states[j - 1], events[j - 1], states[i].runs[r].stream.entry);
    }
  }

  /** A run in which a client approves and the call goes through, and one in which it rejects. */
  lemma DecisionGoesThrough(r: string, q: string, approves: bool) returns (states: seq<State>, events: seq<Event>)
    ensures IsRun(states, events)
    ensures events == [Join(r), Ask(r, q), Register(r, false), Resolve(q, approves), WaitDecided(r), Send(r), Receive(r)]
    ensures states[7].outcomes == [Outcome(r, q, Decision(q, approves))]
    ensures states[7].accepted == [Accepted(0, Decision(q, approves))]
  {
    var d, e := Decision(q, approves), Accepted(0, Decision(q, approves));
    var s0 := State(map[], map[], 0, map[], {}, [], []);
    var s1 := s0.(runs := map[r := Run(Idle, [], Free, None)]);
    var s2 := s1.(runs := map[r := Run(Asking(q), [q], Free, None)], used := {q});
    var s3 := s2.(runs := map[r := Run(Asking(q), [], Deciding(0), None)], pending := map[q := 0],
                  entries := map[0 := Entry(q, false, None)], nextEntry := 1);
    var s4 := s3.(entries := map[0 := Entry(q, true, Some(d))], accepted := [e]);
    var s5 := s4.(runs := map[r := Run(Asking(q), [], Handing(d), None)], entries := map[0 := Entry(q, true, None)]);
    var s6 := s5.(runs := map[r := Run(Asking(q), [], Free, Some(d))]);
    var s7 := s6.(runs := map[r := Run(Idle, [], Free, None)], outcomes := [Outcome(r, q, d)]);
    states := [s0, s1, s2, s3, s4, s5, s6, s7];
    events := [Join(r), Ask(r, q), Register(r, false), Resolve(q, approves), WaitDecided(r), Send(r), Receive(r)];
    Begins(r, q);
    Settles(r, q, approves);
    Delivers(s5, r, q, d);
    hide Happen, Enabled;
    forall n | 0 <= n < |events| ensures StepAt(states, events, n) {
      assert n == 0 || n == 1 || n == 2 || n == 3 || n == 4 || n == 5 || n == 6;
    }
  }

  lemma Begins(r: string, q: string)
    ensures var s0 := State(map[], map[], 0, map[], {}, [], []);
      var s1 := s0.(runs := map[r := Run(Idle, [], Free, None)]);
      var s2 := s1.(runs := map[r := Run(Asking(q), [q], Free, None)], used := {q});
      var s3 := s2.(runs := map[r := Run(Asking(q), [], Deciding(0), None)], pending := map[q := 0],
                    entries := map[0 := Entry(q, false, None)], nextEntry := 1);
      && Enabled(s0, Join(r)) && Happen(s0, Join(r)) == s1
      && Enabled(s1, Ask(r, q)) && Happen(s1, Ask(r, q)) == s2
      && Enabled(s2, Register(r, false)) && Happen(s2, Register(r, false)) == s3
  {
    assert [q][1..] == [] && [] + [q] == [q];
    assert map[r := Run(Idle, [], Free, None)][r := Run(Asking(q), [q], Free, None)] == map[r := Run(Asking(q), [q], Free, None)];
    assert map[r := Run(Asking(q), [q], Free, None)][r := Run(Asking(q), [], Deciding(0), None)]
      == map[r := Run(Asking(q), [], Deciding(0), None)];
  }

  lemma Settles(r: string, q: string, approves: bool)
    ensures var d, e := Decision(q, approves), Accepted(0, Decision(q, approves));
      var s3 := State(map[q := 0], map[0 := Entry(q, false, None)], 1, map[r := Run(Asking(q), [], Deciding(0), None)], {q}, [], []);
      var s4 := s3.(entries := map[0 := Entry(q, true, Some(d))], accepted := [e]);
      var s5 := s4.(runs := map[r := Run(Asking(q), [], Handing(d), None)], entries := map[0 := Entry(q, true, None)]);
      && Enabled(s3, Resolve(q, approves)) && Happen(s3, Resolve(q, approves)) == s4
      && Enabled(s4, WaitDecided(r)) && Happen(s4, WaitDecided(r)) == s5
  {}

  lemma Delivers(s: State, r: string, q: string, d: Decision)
    requires s.runs == map[r := Run(Asking(q), [], Handing(d), None)] && d.interruptId == q && s.outcomes == []
    ensures var s6 := s.(runs := map[r := Run(Asking(q), [], Free, Some(d))]);
      var s7 := s6.(runs := map[r := Run(Idle, [], Free, None)], outcomes := [Outcome(r, q, d)]);
      && Enabled(s, Send(r)) && Happen(s, Send(r)) == s6
      && Enabled(s6, Receive(r)) && Happen(s6, Receive(r)) == s7
  {}
}

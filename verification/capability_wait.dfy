/** One proxy tool call waiting for its client tool (ai-runtime/agent/capability.go:182-328, 426-496),
    with bindings made, withdrawn, invalidated and expiring around it. There is one waiter of the
    session and tool at a time. */
module CapabilityWait {
  datatype Binding = Binding(tools: seq<string>, expires: int)

  /** hit: the binding a lookup chose, and when. */
  datatype Hit = Hit(connection: string, binding: Binding, at: int)

  datatype Outcome = Result(hit: Hit) | Raised(hit: Hit) | FailureText

  datatype Phase = Start | Looking | Invoking(hit: Hit) | Failing(hit: Hit) | Blocked | Done(outcome: Outcome)

  /** signal: the notification channel of capacity one; bound: a binding that names the tool was made
      since the last lookup; waits: the calls of the wait observer so far. */
  datatype Call = Call(tool: string, now: int, bindings: map<string, Binding>, registered: bool, signal: bool,
                       phase: Phase, waits: seq<bool>, bound: bool)

  /** The bindings a lookup may return. */
  predicate Serves(b: Binding, tool: string, now: int) {
    b.expires > now && tool in b.tools
  }

  datatype Event =
    | Tick
    | Bind(connection: string, tools: seq<string>, ttl: int)
    | Unbind(connection: string)
    | Register
    | Found(connection: string)
    | NotFound(evicted: set<string>)
    | Invoked | InvokeCancelled | InvokeFailed | Invalidate
    | Wake | GiveUp
    | Unregister

  predicate Enabled(c: Call, e: Event) {
    match e
    case Tick => true
    case Bind(_, _, _) => true
    case Unbind(_) => true
    case Register => c.phase.Start?
    case Found(k) => c.phase.Looking? && k in c.bindings && Serves(c.bindings[k], c.tool, c.now)
    case NotFound(gone) =>
      && c.phase.Looking? && (forall k :: k in c.bindings ==> !Serves(c.bindings[k], c.tool, c.now))
      && (forall k :: k in gone ==> k in c.bindings && c.bindings[k].expires <= c.now)
    case Invoked => c.phase.Invoking?
    case InvokeCancelled => c.phase.Invoking?
    case InvokeFailed => c.phase.Invoking?
    case Invalidate => c.phase.Failing?
    case Wake => c.phase.Blocked? && c.signal
    case GiveUp => c.phase.Blocked?
    case Unregister => c.phase.Done? && c.registered
  }

  function Waiting(c: Call): bool {
    c.waits != [] && c.waits[|c.waits| - 1]
  }

  function EnterWait(c: Call): Call {
    if Waiting(c) then c else c.(waits := c.waits + [true])
  }

  function LeaveWait(c: Call): Call {
    if Waiting(c) then c.(waits := c.waits + [false]) else c
  }

  function Happen(c: Call, e: Event): Call
    requires Enabled(c, e)
  {
    match e
    case Tick => c.(now := c.now + 1)
    case Bind(k, tools, ttl) =>
      var d := c.(bindings := c.bindings[k := Binding(tools, c.now + ttl)]);
      if c.tool in tools then d.(signal := c.signal || c.registered, bound := true) else d
    case Unbind(k) => c.(bindings := c.bindings - {k})
    case Register => c.(registered := true, signal := false, phase := Looking, bound := false)
    case Found(k) => LeaveWait(c).(phase := Invoking(Hit(k, c.bindings[k], c.now)), bound := false)
    case NotFound(gone) => EnterWait(c).(bindings := c.bindings - gone, phase := Blocked, bound := false)
    case Invoked => c.(phase := Done(Result(c.phase.hit)))
    case InvokeCancelled => c.(phase := Done(Raised(c.phase.hit)))
    case InvokeFailed => c.(phase := Failing(c.phase.hit))
    case Invalidate => EnterWait(c).(bindings := c.bindings - {c.phase.hit.connection}, phase := Blocked)
    case Wake => c.(signal := false, phase := Looking)
    case GiveUp => LeaveWait(c).(phase := Done(FailureText))
    case Unregister => c.(registered := false)
  }

  ghost predicate StepAt(states: seq<Call>, events: seq<Event>, n: nat) {
    n < |events| && n + 1 < |states| && Enabled(states[n], events[n]) && states[n + 1] == Happen(states[n], events[n])
  }

  ghost predicate IsRun(states: seq<Call>, events: seq<Event>) {
    && |states| == |events| + 1
    && states[0] == Call(states[0].tool, states[0].now, states[0].bindings, false, false, Start, [], false)
    && forall n :: 0 <= n < |events| ==> StepAt(states, events, n)
  }

  // ---------------------------------------------------------------- the invariant

  /** true, false, true, false, ... */
  predicate Alternates(waits: seq<bool>) {
    forall k :: 0 <= k < |waits| ==> waits[k] == (k % 2 == 0)
  }

  predicate HitOk(c: Call, h: Hit) {
    Serves(h.binding, c.tool, h.at) && h.at <= c.now
  }

  predicate Inv(c: Call) {
    && Alternates(c.waits)
    && (c.phase.Start? ==> c.waits == [])
    && (c.phase.Blocked? ==> Waiting(c))
    && (c.phase.Invoking? || c.phase.Failing? || c.phase.Done? ==> !Waiting(c))
    && (c.phase.Looking? || c.phase.Invoking? || c.phase.Failing? || c.phase.Blocked? ==> c.registered)
    && (c.phase.Invoking? || c.phase.Failing? || c.phase.Blocked? ==> (c.bound ==> c.signal))
    && (c.phase.Invoking? || c.phase.Failing? ==> HitOk(c, c.phase.hit))
    && (c.phase.Done? && !c.phase.outcome.FailureText? ==> HitOk(c, c.phase.outcome.hit))
  }

  lemma AlternatesSnoc(waits: seq<bool>, b: bool)
    requires Alternates(waits) && (b <==> |waits| % 2 == 0)
    ensures Alternates(waits + [b])
  {}

  lemma WaitingIsOdd(c: Call)
    requires Alternates(c.waits)
    ensures Waiting(c) <==> |c.waits| % 2 == 1
  {}

  lemma HappenInv(c: Call, e: Event)
    requires Inv(c) && Enabled(c, e)
    ensures Inv(Happen(c, e)) && Happen(c, e).tool == c.tool
  {
    WaitingIsOdd(c);
    if Waiting(c) { AlternatesSnoc(c.waits, false); } else { AlternatesSnoc(c.waits, true); }
  }

  lemma {:induction false} RunInv(states: seq<Call>, events: seq<Event>, n: nat)
    requires IsRun(states, events) && n < |states|
    ensures Inv(states[n])
  {
    if n > 0 {
      RunInv(states, events, n - 1);
      assert StepAt(states, events, n - 1);
      HappenInv(states[n - 1], events[n - 1]);
    }
  }

  // ---------------------------------------------------------------- what follows

  /** No wake-up is lost: a binding of the tool made after the last lookup, however it fell between
      lookup, failed invocation, invalidation and blocking, leaves a signal, and the call can look again. */
  lemma NoLostWakeup(states: seq<Call>, events: seq<Event>, n: nat)
    requires IsRun(states, events) && n < |states| && states[n].phase.Blocked? && states[n].bound
    ensures Enabled(states[n], Wake)
  {
    RunInv(states, events, n);
  }

  /** The wait observer hears true and false in turn, starting with true, and every exit leaves it balanced. */
  lemma WaitsBalanced(states: seq<Call>, events: seq<Event>, n: nat)
    requires IsRun(states, events) && n < |states|
    ensures Alternates(states[n].waits)
    ensures states[n].phase.Done? ==> |states[n].waits| % 2 == 0
    ensures |states[n].waits| % 2 == 1 ==> states[n].phase.Blocked? || states[n].phase.Looking?
  {
    RunInv(states, events, n);
    WaitingIsOdd(states[n]);
  }

  /** A result comes from a binding that named the tool and had not expired when it was chosen. */
  lemma ResultIsBound(states: seq<Call>, events: seq<Event>, n: nat)
    requires IsRun(states, events) && n < |states| && states[n].phase.Done? && !states[n].phase.outcome.FailureText?
    ensures var h := states[n].phase.outcome.hit;
      states[n].tool in h.binding.tools && h.binding.expires > h.at && h.at <= states[n].now
  {
    RunInv(states, events, n);
  }

  // ---------------------------------------------------------------- what a wake-up finds

  /** Nobody bound, unbound or invalidated anything in the steps from m up to n. */
  predicate Untouched(events: seq<Event>, m: nat, n: nat) {
    n <= |events| && forall i :: m <= i < n ==> !events[i].Bind? && !events[i].Unbind? && !events[i].Invalidate?
  }

  /** The binding of k serves the tool at a time t. */
  predicate ServesAt(c: Call, k: string, t: int) {
    k in c.bindings && Serves(c.bindings[k], c.tool, t)
  }

  lemma HappenServes(c: Call, e: Event, t: int)
    requires Enabled(c, e) && !e.Bind? && !e.Unbind? && !e.Invalidate? && Happen(c, e).now <= t
    ensures Happen(c, e).tool == c.tool && c.now <= Happen(c, e).now
    ensures forall k :: ServesAt(Happen(c, e), k, t) <==> ServesAt(c, k, t)
  {}

  /** What nobody touches serves on, until it expires. */
  lemma {:induction false} ServesOn(states: seq<Call>, events: seq<Event>, m: nat, n: nat, t: int)
    requires IsRun(states, events) && m <= n < |states| && Untouched(events, m, n) && states[n].now <= t
    ensures states[m].now <= states[n].now && states[n].tool == states[m].tool
    ensures forall k :: ServesAt(states[n], k, t) <==> ServesAt(states[m], k, t)
  {
    if m < n {
      assert StepAt(states, events, n - 1);
      HappenServes(states[n - 1], events[n - 1], t);
      ServesOn(states, events, m, n - 1, t);
    }
  }

  /** What the lookup after a failed invocation finds. The invalidation goes by connection, so of the
      bindings there were it leaves exactly those of other connections: a binding that the same client
      renewed while its call was failing is gone, and the wake-up it caused finds nothing by it. */
  lemma InvalidationDropsRenewal(states: seq<Call>, events: seq<Event>, m: nat, n: nat)
    requires IsRun(states, events) && m < n < |states| && events[m] == Invalidate && Untouched(events, m + 1, n)
    requires states[n].phase.Looking?
    ensures states[m].phase.Failing?
    ensures (exists k :: Enabled(states[n], Found(k)))
      <==> (exists k :: ServesAt(states[m], k, states[n].now) && k != states[m].phase.hit.connection)
  {
    assert StepAt(states, events, m);
    var c, d, e := states[m], states[m + 1], states[n];
    ServesOn(states, events, m + 1, n, e.now);
    assert forall k :: ServesAt(d, k, e.now) <==> ServesAt(c, k, e.now) && k != c.phase.hit.connection;
    assert forall k :: Enabled(e, Found(k)) <==> ServesAt(e, k, e.now);
  }

  /** Step j replaces or withdraws the binding of k: by the client, or as the one whose invocation failed. */
  ghost predicate Touches(states: seq<Call>, events: seq<Event>, j: nat, k: string) {
    j < |events| && j < |states| &&
    match events[j]
    case Bind(x, _, _) => x == k
    case Unbind(x) => x == k
    case Invalidate => states[j].phase.Failing? && states[j].phase.hit.connection == k
    case _ => false
  }

  /** Step j binds k to the tool until after t. */
  ghost predicate BindsUntil(states: seq<Call>, events: seq<Event>, j: nat, k: string, t: int) {
    && j < |events| && j < |states| && events[j].Bind? && events[j].connection == k
    && states[j].tool in events[j].tools && t < states[j].now + events[j].ttl
  }

  ghost predicate UntouchedSince(states: seq<Call>, events: seq<Event>, i: nat, n: nat, k: string) {
    forall j :: i <= j < n ==> !Touches(states, events, j, k)
  }

  lemma StepServes(c: Call, e: Event, k: string, t: int)
    requires Enabled(c, e) && Happen(c, e).now <= t
    ensures ServesAt(Happen(c, e), k, t) <==>
      if Touches([c, Happen(c, e)], [e], 0, k) then BindsUntil([c, Happen(c, e)], [e], 0, k, t) else ServesAt(c, k, t)
    ensures Happen(c, e).tool == c.tool && c.now <= Happen(c, e).now
  {}

  /** A connection serves the tool at a time exactly when its last binding named the tool and lasts until
      then, and was neither withdrawn since nor the one of a failed invocation. */
  lemma {:induction false} ServedBy(states: seq<Call>, events: seq<Event>, n: nat, k: string, t: int)
    requires IsRun(states, events) && n < |states| && states[n].now <= t
    ensures ServesAt(states[n], k, t) <==>
      || (exists i :: 0 <= i < n && BindsUntil(states, events, i, k, t) && UntouchedSince(states, events, i + 1, n, k))
      || (ServesAt(states[0], k, t) && UntouchedSince(states, events, 0, n, k))
  {
    if n > 0 {
      assert StepAt(states, events, n - 1);
      var c, e := states[n - 1], events[n - 1];
      StepServes(c, e, k, t);
      ServedBy(states, events, n - 1, k, t);
      assert Touches([c, states[n]], [e], 0, k) <==> Touches(states, events, n - 1, k);
      assert BindsUntil([c, states[n]], [e], 0, k, t) <==> BindsUntil(states, events, n - 1, k, t);
      if i :| 0 <= i < n - 1 && BindsUntil(states, events, i, k, t) && UntouchedSince(states, events, i + 1, n - 1, k) && !Touches(states, events, n - 1, k) {
        assert UntouchedSince(states, events, i + 1, n, k);
      }
      if i :| 0 <= i < n && BindsUntil(states, events, i, k, t) && UntouchedSince(states, events, i + 1, n, k) {
        assert i < n - 1 ==> UntouchedSince(states, events, i + 1, n - 1, k) && !Touches(states, events, n - 1, k);
      }
      assert BindsUntil(states, events, n - 1, k, t) ==> UntouchedSince(states, events, n, n, k);
      assert UntouchedSince(states, events, 0, n, k) <==> UntouchedSince(states, events, 0, n - 1, k) && !Touches(states, events, n - 1, k);
    }
  }

  // ---------------------------------------------------------------- how a call ends

  /** What came of the call: the result or the error of an invocation by the binding it was made with, or
      the call gave up. */
  ghost predicate EndsAs(states: seq<Call>, events: seq<Event>, i: nat, out: Outcome) {
    i < |events| && i < |states| &&
    match out
    case Result(hit) => events[i] == Invoked && states[i].phase == Invoking(hit)
    case Raised(hit) => events[i] == InvokeCancelled && states[i].phase == Invoking(hit)
    case FailureText => events[i] == GiveUp && states[i].phase.Blocked?
  }

  lemma StepEnds(c: Call, e: Event)
    requires Enabled(c, e) && Happen(c, e).phase.Done?
    ensures (c.phase.Done? && Happen(c, e).phase == c.phase) || EndsAs([c, Happen(c, e)], [e], 0, Happen(c, e).phase.outcome)
  {}

  /** Every outcome has its cause. */
  lemma {:induction false} OutcomeBy(states: seq<Call>, events: seq<Event>, n: nat)
    requires IsRun(states, events) && n < |states| && states[n].phase.Done?
    ensures exists i :: 0 <= i < n && EndsAs(states, events, i, states[n].phase.outcome)
  {
    if n > 0 {
      assert StepAt(states, events, n - 1);
      StepEnds(states[n - 1], events[n - 1]);
      if states[n - 1].phase.Done? && states[n].phase == states[n - 1].phase {
        OutcomeBy(states, events, n - 1);
      } else {
        assert EndsAs(states, events, n - 1, states[n].phase.outcome);
      }
    }
  }

  /** Step i bound the tool while the call was registered to be told. */
  ghost predicate Signals(states: seq<Call>, events: seq<Event>, i: nat) {
    i < |events| && i < |states| && events[i].Bind? && states[i].tool in events[i].tools && states[i].registered
  }

  predicate Unwoken(events: seq<Event>, i: nat, n: nat) {
    n <= |events| && forall j :: i <= j < n ==> !events[j].Wake? && !events[j].Register?
  }

  lemma StepSignals(c: Call, e: Event)
    requires Enabled(c, e)
    ensures Happen(c, e).signal <==> Signals([c, Happen(c, e)], [e], 0) || (c.signal && !e.Wake? && !e.Register?)
  {}

  /** A wake-up waits exactly when the tool was bound since the call was last woken: none is lost, none is
      left over. */
  lemma {:induction false} SignalBy(states: seq<Call>, events: seq<Event>, n: nat)
    requires IsRun(states, events) && n < |states|
    ensures states[n].signal <==> exists i :: 0 <= i < n && Signals(states, events, i) && Unwoken(events, i + 1, n)
  {
    if n > 0 {
      assert StepAt(states, events, n - 1);
      SignalBy(states, events, n - 1);
      var c, e := states[n - 1], events[n - 1];
      StepSignals(c, e);
      assert Signals([c, states[n]], [e], 0) <==> Signals(states, events, n - 1);
      assert Unwoken(events, n, n);
      if i :| 0 <= i < n - 1 && Signals(states, events, i) && Unwoken(events, i + 1, n - 1) && !e.Wake? && !e.Register? {
        assert Unwoken(events, i + 1, n);
      }
      if i :| 0 <= i < n && Signals(states, events, i) && Unwoken(events, i + 1, n) {
        assert i < n - 1 ==> Unwoken(events, i + 1, n - 1) && !e.Wake? && !e.Register?;
      }
    }
  }

  /** A run in which just that happens: between the lookup that chose the binding and the invalidation
      the client binds its tool again, for any time to live; the signal wakes the call, and there is
      nothing to be found. */
  lemma RenewalLost(tool: string, connection: string, now: int, ttl: int)
    returns (states: seq<Call>, events: seq<Event>)
    requires ttl > 0
    ensures IsRun(states, events)
    ensures events == [Bind(connection, [tool], ttl), Register, Found(connection), Bind(connection, [tool], ttl),
                       InvokeFailed, Invalidate, Wake]
    ensures states[6].bound && states[6].signal && states[7].phase.Looking?
    ensures states[7].now == now && forall k :: !Enabled(states[7], Found(k))
  {
    var s0 := Call(tool, now, map[], false, false, Start, [], false);
    var s1 := Happen(s0, Bind(connection, [tool], ttl));
    var s2 := Happen(s1, Register);
    var s3 := Happen(s2, Found(connection));
    var s4 := Happen(s3, Bind(connection, [tool], ttl));
    var s5 := Happen(s4, InvokeFailed);
    var s6 := Happen(s5, Invalidate);
    var s7 := Happen(s6, Wake);
    states := [s0, s1, s2, s3, s4, s5, s6, s7];
    events := [Bind(connection, [tool], ttl), Register, Found(connection), Bind(connection, [tool], ttl),
               InvokeFailed, Invalidate, Wake];
    assert forall n :: 0 <= n < |events| ==> StepAt(states, events, n);
  }
}

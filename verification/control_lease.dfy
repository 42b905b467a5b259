/** Control leases (daemon/internal/agentcontrol/lease.go): fencing over every interleaving of
    acquisition, takeover, release, disconnection and control operations. */
module ControlLease {
  import opened Events

  /** What took effect, in order: a client became the holder, stopped being it, or committed. */
  datatype Entry = Took(session: string, client: string) | Freed(session: string) | Committed(session: string, client: string)

  /** Who is inside the lease lock of a session, and whether it passed the check. */
  datatype Section = Checking(client: string) | Operating(client: string)

  /** sweeping: the sessions a disconnecting client still has to look at; clean: it acquired nothing since. */
  datatype Sweep = Sweep(client: string, left: set<string>, clean: bool)

  datatype Leases = Leases(holders: map<string, string>, locked: map<string, Section>, sweep: Option<Sweep>, log: seq<Entry>)

  datatype Event =
    | Acquire(session: string, client: string)
    | Release(session: string, client: string)
    | Enter(session: string, client: string)
    | Check(session: string)
    | Commit(session: string)
    | Leave(session: string)
    | Disconnect(client: string)
    | SweepOne(session: string)
    | Disconnected

  function Holder(l: Leases, s: string): string {
    if s in l.holders then l.holders[s] else ""
  }

  /** An empty client never holds. */
  predicate Holds(l: Leases, s: string, c: string) {
    c != "" && Holder(l, s) == c
  }

  predicate Enabled(l: Leases, e: Event) {
    match e
    case Acquire(s, _) => s !in l.locked
    case Release(s, _) => s !in l.locked
    case Enter(s, _) => s !in l.locked
    case Check(s) => s in l.locked && l.locked[s].Checking?
    case Commit(s) => s in l.locked && l.locked[s].Operating?
    case Leave(s) => s in l.locked && l.locked[s].Operating?
    case Disconnect(_) => l.sweep.None?
    case SweepOne(s) => l.sweep.Some? && s in l.sweep.value.left && s !in l.locked
    case Disconnected => l.sweep.Some? && l.sweep.value.left == {}
  }

  /** A lease is created empty on first use; the holder is set under its lock. */
  function Given(l: Leases, s: string, c: string): Leases {
    l.(holders := l.holders[s := c], log := l.log + [if c == "" then Freed(s) else Took(s, c)])
  }

  function Touched(l: Leases, s: string): Leases {
    if s in l.holders then l else l.(holders := l.holders[s := ""])
  }

  function Happen(l: Leases, e: Event): Leases
    requires Enabled(l, e)
  {
    match e
    case Acquire(s, c) =>
      if c == "" then l
      else if Holder(l, s) == c then Touched(l, s)
      else
        Given(l, s, c).(sweep := if l.sweep.Some? && l.sweep.value.client == c
                                 then Some(l.sweep.value.(clean := false)) else l.sweep)
    case Release(s, c) => if c == "" then l else if Holder(l, s) == c then Given(l, s, "") else Touched(l, s)
    case Enter(s, c) => Touched(l, s).(locked := l.locked[s := Checking(c)])
    case Check(s) =>
      if Holds(l, s, l.locked[s].client) then l.(locked := l.locked[s := Operating(l.locked[s].client)])
      else l.(locked := l.locked - {s})
    case Commit(s) => l.(log := l.log + [Committed(s, l.locked[s].client)])
    case Leave(s) => l.(locked := l.locked - {s})
    case Disconnect(c) => if c == "" then l else l.(sweep := Some(Sweep(c, l.holders.Keys, true)))
    case SweepOne(s) =>
      var w := l.sweep.value;
      var k := if Holder(l, s) == w.client then Given(l, s, "") else l;
      k.(sweep := Some(w.(left := w.left - {s})))
    case Disconnected => l.(sweep := None)
  }

  ghost predicate StepAt(states: seq<Leases>, events: seq<Event>, n: nat) {
    n < |events| && n + 1 < |states| && Enabled(states[n], events[n]) && states[n + 1] == Happen(states[n], events[n])
  }

  ghost predicate IsRun(states: seq<Leases>, events: seq<Event>) {
    && |states| == |events| + 1 && states[0] == Leases(map[], map[], None, [])
    && forall n :: 0 <= n < |events| ==> StepAt(states, events, n)
  }

  // ---------------------------------------------------------------- fencing

  /** Who held s after these effects. */
  function HolderAfter(log: seq<Entry>, s: string): string {
    if log == [] then ""
    else
      match log[|log| - 1]
      case Took(x, c) => if x == s then c else HolderAfter(log[..|log| - 1], s)
      case Freed(x) => if x == s then "" else HolderAfter(log[..|log| - 1], s)
      case Committed(_, _) => HolderAfter(log[..|log| - 1], s)
  }

  /** The operation at n landed while its client held the session. */
  predicate Fenced(log: seq<Entry>, n: nat) {
    n < |log| && (log[n].Committed? ==> log[n].client != "" && HolderAfter(log[..n], log[n].session) == log[n].client)
  }

  ghost predicate Inv(l: Leases) {
    && (forall s :: Holder(l, s) == HolderAfter(l.log, s))
    && (forall s :: s in l.locked && l.locked[s].Operating? ==> Holds(l, s, l.locked[s].client))
    && (forall n :: 0 <= n < |l.log| ==> Fenced(l.log, n))
    && SweepOk(l)
  }

  /** While it acquired nothing, a disconnecting client holds only what it still has to look at. */
  ghost predicate SweepOk(l: Leases) {
    l.sweep.Some? ==>
      l.sweep.value.client != "" &&
      (l.sweep.value.clean ==> forall s :: s in l.holders && l.holders[s] == l.sweep.value.client ==> s in l.sweep.value.left)
  }

  lemma {:induction false} LogSnoc(log: seq<Entry>, e: Entry, s: string)
    ensures HolderAfter(log + [e], s) ==
      match e
      case Took(x, c) => if x == s then c else HolderAfter(log, s)
      case Freed(x) => if x == s then "" else HolderAfter(log, s)
      case Committed(_, _) => HolderAfter(log, s)
  {
    assert (log + [e])[..|log|] == log;
  }

  lemma {:induction false} FencedSnoc(log: seq<Entry>, e: Entry)
    requires forall n :: 0 <= n < |log| ==> Fenced(log, n)
    requires e.Committed? ==> e.client != "" && HolderAfter(log, e.session) == e.client
    ensures forall n :: 0 <= n < |log + [e]| ==> Fenced(log + [e], n)
  {
    forall n | 0 <= n < |log + [e]| ensures Fenced(log + [e], n) {
      if n < |log| {
        assert Fenced(log, n);
        assert (log + [e])[..n] == log[..n];
      } else {
        assert (log + [e])[..n] == log;
      }
    }
  }

  /** A new holder of a session nobody is operating on. */
  lemma GivenInv(l: Leases, s: string, c: string)
    requires Inv(l) && s !in l.locked
    ensures var t := Given(l, s, c);
      && (forall x :: Holder(t, x) == HolderAfter(t.log, x))
      && (forall x :: x in t.locked && t.locked[x].Operating? ==> Holds(t, x, t.locked[x].client))
      && (forall n :: 0 <= n < |t.log| ==> Fenced(t.log, n))
  {
    var e := if c == "" then Freed(s) else Took(s, c);
    var t := Given(l, s, c);
    forall x ensures Holder(t, x) == HolderAfter(t.log, x) { LogSnoc(l.log, e, x); }
    FencedSnoc(l.log, e);
  }

  lemma CommitInv(l: Leases, s: string)
    requires Inv(l) && Enabled(l, Commit(s))
    ensures Inv(Happen(l, Commit(s)))
  {
    var e := Committed(s, l.locked[s].client);
    var t := Happen(l, Commit(s));
    forall x ensures Holder(t, x) == HolderAfter(t.log, x) { LogSnoc(l.log, e, x); }
    FencedSnoc(l.log, e);
  }

  lemma HappenInv(l: Leases, e: Event)
    requires Inv(l) && Enabled(l, e)
    ensures Inv(Happen(l, e))
  {
    var t := Happen(l, e);
    match e {
      case Acquire(s, c) => if c != "" && Holder(l, s) != c { GivenInv(l, s, c); }
      case Release(s, c) => if c != "" && Holder(l, s) == c { GivenInv(l, s, ""); }
      case SweepOne(s) => if Holder(l, s) == l.sweep.value.client { GivenInv(l, s, ""); }
      case Commit(s) => CommitInv(l, s);
      case _ =>
        assert forall s :: Holder(t, s) == Holder(l, s);
    }
  }

  lemma {:induction false} RunInv(states: seq<Leases>, events: seq<Event>, n: nat)
    requires IsRun(states, events) && n < |states|
    ensures Inv(states[n])
  {
    if n > 0 {
      RunInv(states, events, n - 1);
      assert StepAt(states, events, n - 1);
      HappenInv(states[n - 1], events[n - 1]);
    }
  }

  /** Every control operation lands at a moment when its client holds the session: none lands after a
      takeover, a release or a disconnection, and none by a client that never acquired. */
  lemma Fencing(states: seq<Leases>, events: seq<Event>, n: nat, k: nat)
    requires IsRun(states, events) && n < |states| && k < |states[n].log| && states[n].log[k].Committed?
    ensures var log := states[n].log;
      log[k].client != "" && HolderAfter(log[..k], log[k].session) == log[k].client
  {
    RunInv(states, events, n);
    assert Fenced(states[n].log, k);
  }

  /** When the sweep of a disconnected client is through and it acquired nothing meanwhile, it holds
      no lease, although the sessions were looked at one by one. */
  lemma DisconnectedHoldsNothing(states: seq<Leases>, events: seq<Event>, n: nat, s: string)
    requires IsRun(states, events) && n < |events| && events[n].Disconnected?
    requires states[n].sweep.Some? && states[n].sweep.value.clean
    ensures !Holds(states[n], s, states[n].sweep.value.client)
  {
    RunInv(states, events, n);
    assert StepAt(states, events, n);
  }

  // ---------------------------------------------------------------- who holds a session

  /** The client that is being disconnected. */
  function SweptBy(events: seq<Event>): string {
    if events == [] then ""
    else
      match events[|events| - 1]
      case Disconnect(c) => if c == "" then SweptBy(events[..|events| - 1]) else c
      case Disconnected => ""
      case _ => SweptBy(events[..|events| - 1])
  }

  /** Who holds s by what clients asked for: the last to acquire it, unless that client released it or its
      disconnection came to it since. */
  function HolderBy(events: seq<Event>, s: string): string {
    if events == [] then ""
    else
      var init := events[..|events| - 1];
      match events[|events| - 1]
      case Acquire(x, c) => if x == s && c != "" then c else HolderBy(init, s)
      case Release(x, c) => if x == s && HolderBy(init, s) == c then "" else HolderBy(init, s)
      case SweepOne(x) => if x == s && HolderBy(init, s) == SweptBy(init) then "" else HolderBy(init, s)
      case _ => HolderBy(init, s)
  }

  lemma StepHolder(l: Leases, e: Event, s: string)
    requires Enabled(l, e) && (l.sweep.Some? ==> l.sweep.value.client != "")
    ensures Holder(Happen(l, e), s) ==
      match e
      case Acquire(x, c) => if x == s && c != "" then c else Holder(l, s)
      case Release(x, c) => if x == s && c != "" && Holder(l, s) == c then "" else Holder(l, s)
      case SweepOne(x) => if x == s && Holder(l, s) == l.sweep.value.client then "" else Holder(l, s)
      case _ => Holder(l, s)
    ensures Happen(l, e).sweep.Some? <==> if e.Disconnect? then e.client != "" || l.sweep.Some? else !e.Disconnected? && l.sweep.Some?
    ensures Happen(l, e).sweep.Some? ==>
      Happen(l, e).sweep.value.client == if e.Disconnect? && e.client != "" then e.client else l.sweep.value.client
  {}

  /** Over every interleaving a session is held by exactly that client. */
  lemma {:induction false} HeldBy(states: seq<Leases>, events: seq<Event>, n: nat, s: string)
    requires IsRun(states, events) && n < |states|
    ensures Holder(states[n], s) == HolderBy(events[..n], s)
    ensures (if states[n].sweep.Some? then states[n].sweep.value.client else "") == SweptBy(events[..n])
    ensures states[n].sweep.Some? ==> states[n].sweep.value.client != ""
  {
    if n > 0 {
      assert StepAt(states, events, n - 1);
      HeldBy(states, events, n - 1, s);
      assert events[..n][..n - 1] == events[..n - 1];
      StepHolder(states[n - 1], events[n - 1], s);
    }
  }

  /** An operation is let in exactly when its client holds the session by what clients asked for, and what
      it then does is on record under its session and client. */
  lemma {:induction false} AdmitsHolder(states: seq<Leases>, events: seq<Event>, n: nat, s: string)
    requires IsRun(states, events) && n < |events|
    ensures events[n] == Check(s) ==>
      && s in states[n].locked
      && var c := states[n].locked[s].client;
         (s in states[n + 1].locked && states[n + 1].locked[s] == Operating(c) <==> c != "" && HolderBy(events[..n], s) == c)
    ensures events[n] == Commit(s) ==>
      s in states[n].locked && states[n + 1].log == states[n].log + [Committed(s, states[n].locked[s].client)]
      && HolderBy(events[..n], s) == states[n].locked[s].client
    ensures forall c :: events[n] == Enter(s, c) ==> s in states[n + 1].locked && states[n + 1].locked[s] == Checking(c)
  {
    assert StepAt(states, events, n);
    HeldBy(states, events, n, s);
    RunInv(states, events, n);
  }
}

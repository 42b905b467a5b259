/** ApprovalManager and the decision provider as the source writes them: a table of entries changed
    under a lock, with the sweep that runs on every entry point. Time is an integer of
    milliseconds; a zero expiry means none was given. */
module Approvals {
  import opened ApprovalProtocol
  import P = PluginRegistry

  const RESOLVED_RETENTION := 30_000

  class ApprovalEntry {
    const request: string
    const sessionId: string
    const expires: int
    var resolved: bool
    var decide: seq<Decision>

    constructor (request: string, sessionId: string, expires: int)
      ensures this.request == request && this.sessionId == sessionId && this.expires == expires
      ensures !resolved && decide == []
    {
      this.request, this.sessionId, this.expires := request, sessionId, expires;
      resolved, decide := false, [];
    }
  }

  datatype ResolveOutcome = Delivered | Unknown | AlreadyResolved

  /** Settled and out of the retention window. */
  predicate Stale(resolved: bool, expires: int, now: int) {
    resolved && expires != 0 && expires + RESOLVED_RETENTION <= now
  }

  predicate Expired(expires: int, now: int) {
    expires != 0 && expires <= now
  }

  class ApprovalManager {
    var pending: map<string, ApprovalEntry>

    constructor ()
      ensures pending == map[]
    {
      pending := map[];
    }

    /** A decision waits in the channel only of a settled entry, and only one. */
    ghost predicate Valid()
      reads this, pending.Values
    {
      forall q :: q in pending ==>
        && pending[q].request == q && |pending[q].decide| <= 1
        && (pending[q].decide != [] ==> pending[q].resolved)
    }

    method Sweep(now: int)
      modifies this`pending
      ensures pending == map q | q in old(pending) && !Stale(old(pending)[q].resolved, old(pending)[q].expires, now) :: old(pending)[q]
    {
      var keys := pending.Keys;
      while keys != {}
        invariant keys <= old(pending).Keys
        invariant forall q :: q in pending <==>
          q in old(pending) && (q in keys || !Stale(old(pending)[q].resolved, old(pending)[q].expires, now))
        invariant forall q :: q in pending ==> pending[q] == old(pending)[q]
        modifies this`pending
        decreases keys
      {
        var q :| q in keys;
        keys := keys - {q};
        var entry := pending[q];
        if !entry.resolved || entry.expires == 0 {
          continue;
        }
        if entry.expires + RESOLVED_RETENTION > now {
          continue;
        }
        pending := pending - {q};
      }
    }

    /** The lock section of Wait: None for a request that is already there. */
    method Register(now: int, request: string, sessionId: string, expires: int) returns (entry: ApprovalEntry?)
      requires Valid()
      modifies this`pending
      ensures Valid()
      ensures entry == null <==>
        request in old(pending) && !Stale(old(pending)[request].resolved, old(pending)[request].expires, now)
      ensures entry != null ==>
        && fresh(entry) && request in pending && pending[request] == entry
        && entry.request == request && entry.sessionId == sessionId && entry.expires == expires
        && !entry.resolved && entry.decide == []
      ensures var kept := map q | q in old(pending) && !Stale(old(pending)[q].resolved, old(pending)[q].expires, now) :: old(pending)[q];
        pending == if entry == null then kept else kept[request := entry]
    {
      Sweep(now);
      if request in pending {
        return null;
      }
      var e := new ApprovalEntry(request, sessionId, expires);
      pending := pending[request := e];
      entry := e;
    }

    /** The first valid decision wins: it closes the entry and is sent without blocking. */
    method Resolve(now: int, request: string, approves: bool) returns (outcome: ResolveOutcome)
      requires Valid()
      modifies this`pending, pending.Values`resolved, pending.Values`decide
      ensures Valid()
      ensures outcome.Unknown? <==>
        request !in old(pending) || Stale(old(pending[request].resolved), old(pending)[request].expires, now)
      ensures outcome.AlreadyResolved? ==> old(pending[request].resolved)
      ensures outcome.Delivered? ==>
        && !old(pending[request].resolved) && request in pending && pending[request] == old(pending)[request]
        && old(pending[request].decide) == []
        && pending[request].resolved && pending[request].decide == [Decision(request, approves)]
      ensures pending == map q | q in old(pending) && !Stale(old(pending[q].resolved), old(pending)[q].expires, now) :: old(pending)[q]
      ensures forall q :: q in pending && (q != request || !outcome.Delivered?) ==>
        && pending[q].resolved == old(pending[q].resolved) && pending[q].decide == old(pending[q].decide)
    {
      Sweep(now);
      if request !in pending {
        return Unknown;
      }
      var entry := pending[request];
      if entry.resolved {
        return AlreadyResolved;
      }
      entry.resolved := true;
      entry.decide := entry.decide + [Decision(request, approves)];
      outcome := Delivered;
    }

    /** The open approvals of a session by id; whatever has expired leaves the table on the way. */
    method PendingOf(now: int, sessionId: string) returns (out: seq<string>)
      modifies this`pending
      ensures pending == map q | q in old(pending) && !Expired(old(pending)[q].expires, now) :: old(pending)[q]
      ensures P.Sorted(out) && P.Distinct(out)
      ensures forall q :: q in out <==> q in pending && !pending[q].resolved && pending[q].sessionId == sessionId
    {
      out := [];
      var keys := pending.Keys;
      while keys != {}
        invariant keys <= old(pending).Keys
        invariant forall q :: q in pending <==> q in old(pending) && (q in keys || !Expired(old(pending)[q].expires, now))
        invariant forall q :: q in pending ==> pending[q] == old(pending)[q]
        invariant P.Distinct(out)
        invariant forall q :: q in out <==>
          q in pending && q !in keys && !pending[q].resolved && pending[q].sessionId == sessionId
        modifies this`pending
        decreases keys
      {
        var q :| q in keys;
        keys := keys - {q};
        var entry := pending[q];
        if entry.expires != 0 && entry.expires <= now {
          pending := pending - {q};
          continue;
        }
        if entry.resolved || entry.sessionId != sessionId {
          continue;
        }
        out := out + [q];
      }
      out := P.SortStrings(out);
    }
  }

  // ---------------------------------------------------------------- the decision provider

  /** What the select of GetDecision sees, in order. */
  datatype Signal = CtxDone | TimedOut | ChannelClosed | Got(decision: Decision)

  /** Everything before position n is a decision for another interrupt. */
  predicate AllStale(signals: seq<Signal>, n: nat, request: string) {
    n <= |signals| && forall k :: 0 <= k < n ==> signals[k].Got? && signals[k].decision.interruptId != request
  }

  /** GetDecision: an expired request is rejected at once; else decisions of other interrupts are drained,
      and the first signal that is none of those decides. Some signal has to come: the timer runs. */
  method GetDecision(request: string, expired: bool, signals: seq<Signal>) returns (d: Decision, taken: nat)
    requires exists k :: 0 <= k < |signals| && signals[k].TimedOut?
    ensures d.interruptId == request
    ensures taken < |signals| && AllStale(signals, taken, request)
    ensures if !expired && signals[taken].Got? then d == signals[taken].decision else d == Reject(request)
  {
    taken := 0;
    if expired {
      return Reject(request), 0;
    }
    ghost var timer :| 0 <= timer < |signals| && signals[timer].TimedOut?;
    while true
      invariant taken <= timer && AllStale(signals, taken, request)
      decreases timer - taken
    {
      match signals[taken] {
        case CtxDone => return Reject(request), taken;
        case TimedOut => return Reject(request), taken;
        case ChannelClosed => return Reject(request), taken;
        case Got(decision) =>
          if decision.interruptId != request {
            taken := taken + 1;
            continue;
          }
          return decision, taken;
      }
    }
  }
}

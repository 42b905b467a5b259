/** The rolling-summary compressor of ai-runtime/middlewares/compressor.go. */
module Compressor {
  import opened Messages
  import opened Events

  /** A cut that separates no tool call from its results. */
  predicate Safe(history: seq<Message>, split: nat)
    requires 0 < split < |history|
  {
    && history[split].body.role != ToolRole
    && (history[split - 1].body.role != Assistant || history[split - 1].body.toolCalls == [])
  }

  /** The last safe cut at or before split that folds two messages or more; 0 when there is none. */
  function LastSafe(history: seq<Message>, split: nat): (k: nat)
    requires split < |history|
    ensures k == 0 || (2 <= k <= split && Safe(history, k))
    ensures forall n :: 2 <= n <= split && Safe(history, n) ==> n <= k
  {
    if split < 2 then 0 else if Safe(history, split) then split else LastSafe(history, split - 1)
  }

  /** keepLast is positive and leaves two messages or more to fold; what is kept opens with no tool result
      and what is folded ends in no open call. */
  predicate Cuts(history: seq<Message>, keepLast: int, n: nat) {
    && 0 < keepLast < |history| - 1 && 2 <= n <= |history| - keepLast
    && history[n].body.role != ToolRole
    && !(history[n - 1].body.role == Assistant && history[n - 1].body.toolCalls != [])
  }

  /** The greatest cut that folds two messages or more, keeps keepLast and separates no call from its
      results; 0 when there is none. */
  function SplitPoint(history: seq<Message>, keepLast: int): (k: nat)
    ensures k == 0 || (2 <= k <= |history| - keepLast && k < |history| && Safe(history, k))
    ensures k == 0 || Cuts(history, keepLast, k)
    ensures forall n: nat :: Cuts(history, keepLast, n) ==> n <= k
  {
    if keepLast <= 0 || |history| <= keepLast + 1 then 0
    else
      var last := |history| - keepLast;
      assert forall n: nat :: Cuts(history, keepLast, n) ==> n <= last && Safe(history, n);
      LastSafe(history, last)
  }

  /** The leading system messages. */
  function Leading(history: seq<Message>): (n: nat)
    ensures n <= |history| && forall k :: 0 <= k < n ==> history[k].body.role == System
    ensures n < |history| ==> history[n].body.role != System
  {
    if history == [] || history[0].body.role != System then 0 else 1 + Leading(history[1..])
  }

  function Summary(text: string): Message {
    Message("", SummaryBody(text))
  }

  /** None: the model call for the summary failed. */
  function Compress(history: seq<Message>, keepLast: int, protectSystem: bool, summary: Option<string>): Option<seq<Message>> {
    var keepHead := if protectSystem then Leading(history) else 0;
    var body := history[keepHead..];
    var k := SplitPoint(body, keepLast);
    if k == 0 then Some(history)
    else if summary.None? then None
    else Some(history[..keepHead] + [Summary(summary.value)] + body[k..])
  }

  /** What compression makes of a history: where some cut behind the protected system messages is
      possible, those messages, one system message with the summary, and everything from the last
      possible cut on; where none is, the history; nothing when a summary was needed and not made. */
  lemma CompressMeaning(history: seq<Message>, keepLast: int, protectSystem: bool, summary: Option<string>)
    returns (head: nat, cut: nat)
    ensures head <= |history| && (!protectSystem ==> head == 0)
    ensures forall k :: 0 <= k < head ==> history[k].body.role == System
    ensures protectSystem && head < |history| ==> history[head].body.role != System
    ensures var body, out := history[head..], Compress(history, keepLast, protectSystem, summary);
      if exists n: nat :: Cuts(body, keepLast, n) then
        && Cuts(body, keepLast, cut) && (forall n: nat :: Cuts(body, keepLast, n) ==> n <= cut)
        && if summary.None? then out == None
           else
             out == Some(history[..head] + [Message("", Body(System, summary.value, [], "", "", ""))] + history[head + cut..])
      else out == Some(history)
  {
    head := if protectSystem then Leading(history) else 0;
    var body := history[head..];
    cut := SplitPoint(body, keepLast);
    if cut != 0 { assert body[cut..] == history[head + cut..]; }
  }

  method FindSplit(history: seq<Message>, keepLast: int) returns (split: nat, ok: bool)
    ensures ok <==> SplitPoint(history, keepLast) != 0
    ensures split == SplitPoint(history, keepLast)
  {
    if keepLast <= 0 || |history| <= keepLast + 1 {
      return 0, false;
    }
    split := |history| - keepLast;
    while split >= 2
      invariant split <= |history| - keepLast
      invariant LastSafe(history, split) == LastSafe(history, |history| - keepLast)
    {
      if history[split].body.role != ToolRole {
        var prev := history[split - 1].body;
        if prev.role != Assistant || |prev.toolCalls| == 0 {
          return split, true;
        }
      }
      split := split - 1;
    }
    return 0, false;
  }

  method CountLeading(history: seq<Message>) returns (keepHead: nat)
    ensures keepHead == Leading(history)
  {
    keepHead := 0;
    while keepHead < |history| && history[keepHead].body.role == System
      invariant keepHead <= |history| && keepHead + Leading(history[keepHead..]) == Leading(history)
    {
      assert history[keepHead..][1..] == history[keepHead + 1..];
      keepHead := keepHead + 1;
    }
  }

  /** summary is what the model answers when it is asked. */
  method CompressHistory(history: seq<Message>, keepLast: int, protectSystem: bool, summary: Option<string>)
    returns (out: Option<seq<Message>>)
    ensures out == Compress(history, keepLast, protectSystem, summary)
  {
    var keepHead := 0;
    if protectSystem { keepHead := CountLeading(history); }
    var body := history[keepHead..];
    var split, ok := FindSplit(body, keepLast);
    if !ok {
      return Some(history);
    }
    if summary.None? {
      return None;
    }
    out := Some(history[..keepHead] + [Summary(summary.value)] + body[split..]);
  }
}

/** Tool calls and their results stay together through every rewrite of a history. */
module ToolPairing {
  import opened Messages
  import opened Events
  import opened Compressor
  import opened Picking

  predicate Calls(b: Body) {
    b.role == Assistant && b.toolCalls != []
  }

  /** rs are the results of the calls, one each and in order. */
  predicate Answers(calls: seq<ToolCall>, rs: seq<Message>) {
    |rs| == |calls| && forall k :: 0 <= k < |calls| ==> rs[k].body.role == ToolRole && rs[k].body.toolCallId == calls[k].id
  }

  /** Every assistant tool call is followed by its results, and every result follows its call. */
  predicate WellPaired(h: seq<Message>) {
    if h == [] then true
    else if Calls(h[0].body) then
      var n := |h[0].body.toolCalls|;
      |h| > n && Answers(h[0].body.toolCalls, h[1..n + 1]) && WellPaired(h[n + 1..])
    else h[0].body.role != ToolRole && WellPaired(h[1..])
  }

  lemma {:induction false} PairedConcat(a: seq<Message>, b: seq<Message>)
    requires WellPaired(a) && WellPaired(b)
    ensures WellPaired(a + b)
  {
    if a == [] {
      assert a + b == b;
    } else {
      var n := if Calls(a[0].body) then |a[0].body.toolCalls| else 0;
      assert (a + b)[1..n + 1] == a[1..n + 1] && (a + b)[n + 1..] == a[n + 1..] + b;
      PairedConcat(a[n + 1..], b);
    }
  }

  /** A history may be cut before anything but a tool result. */
  lemma {:induction false} PairedCut(h: seq<Message>, at: nat)
    requires WellPaired(h) && at <= |h| && (at < |h| ==> h[at].body.role != ToolRole)
    ensures WellPaired(h[..at]) && WellPaired(h[at..])
  {
    if at == 0 {
      assert h[at..] == h;
    } else {
      var n := if Calls(h[0].body) then |h[0].body.toolCalls| else 0;
      assert forall k :: 1 <= k <= n ==> h[1..n + 1][k - 1] == h[k];
      PairedCut(h[n + 1..], at - n - 1);
      Slices(h, n, at);
    }
  }

  lemma Slices<T>(h: seq<T>, n: nat, at: nat)
    requires n < at <= |h|
    ensures h[n + 1..][at - n - 1..] == h[at..]
    ensures h[..at][1..n + 1] == h[1..n + 1] && h[..at][n + 1..] == h[n + 1..][..at - n - 1]
  {}

  /** Pairing looks at bodies only, so stamping ids keeps it. */
  lemma {:induction false} PairedBodies(a: seq<Message>, b: seq<Message>)
    requires WellPaired(a) && Bodies(a) == Bodies(b)
    ensures WellPaired(b)
  {
    assert |a| == |Bodies(a)| == |b|;
    if a != [] {
      assert Bodies(a)[0] == Bodies(b)[0];
      var n := if Calls(a[0].body) then |a[0].body.toolCalls| else 0;
      forall k | 0 <= k < |a| ensures a[k].body == b[k].body { assert Bodies(a)[k] == Bodies(b)[k]; }
      var ra, rb := a[1..n + 1], b[1..n + 1];
      forall k | 0 <= k < n ensures ra[k].body == rb[k].body {
        assert ra[k] == a[k + 1] && rb[k] == b[k + 1];
      }
      assert Bodies(a[n + 1..]) == Bodies(b[n + 1..]);
      PairedBodies(a[n + 1..], b[n + 1..]);
    }
  }

  lemma PairedOne(m: Message)
    requires m.body.role != ToolRole && !Calls(m.body)
    ensures WellPaired([m])
  {
    assert [m][1..] == [];
  }

  // ---------------------------------------------------------------- the rewrites

  /** Compression at any depth, with or without protected system messages. */
  lemma {:induction false} CompressKeepsPairs(h: seq<Message>, keepLast: int, protectSystem: bool, summary: Option<string>)
    requires WellPaired(h)
    ensures Compress(h, keepLast, protectSystem, summary).Some? ==>
      WellPaired(Compress(h, keepLast, protectSystem, summary).value)
  {
    var keepHead := if protectSystem then Leading(h) else 0;
    var body := h[keepHead..];
    var k := SplitPoint(body, keepLast);
    if k != 0 && summary.Some? {
      assert keepHead < |h|;
      LeadingCut(h, keepHead, protectSystem);
      PairedCut(h, keepHead);
      PairedCut(body, k);
      PairedOne(Summary(summary.value));
      PairedConcat(h[..keepHead], [Summary(summary.value)]);
      PairedConcat(h[..keepHead] + [Summary(summary.value)], body[k..]);
    }
  }

  /** No history opens with a tool result, and none stands behind a system message. */
  lemma {:induction false} LeadingCut(h: seq<Message>, n: nat, protectSystem: bool)
    requires WellPaired(h) && n < |h| && n == if protectSystem then Leading(h) else 0
    ensures h[n].body.role != ToolRole
  {
    if n > 0 { LeadingCut(h[1..], n - 1, protectSystem); }
  }

  /** Where insertSystemBlock puts the block: before the last user message, else at the end. */
  function InsertAt(h: seq<Message>): (at: nat)
    ensures at <= |h|
    ensures at < |h| ==> h[at].body.role == User && forall k :: at < k < |h| ==> h[k].body.role != User
    ensures at == |h| ==> forall k :: 0 <= k < |h| ==> h[k].body.role != User
  {
    LastUser(h, |h|)
  }

  function LastUser(h: seq<Message>, n: nat): (at: nat)
    requires n <= |h| && forall k :: n <= k < |h| ==> h[k].body.role != User
    ensures at <= |h|
    ensures at < |h| ==> h[at].body.role == User && forall k :: at < k < |h| ==> h[k].body.role != User
    ensures at == |h| ==> forall k :: 0 <= k < |h| ==> h[k].body.role != User
  {
    if n == 0 then |h| else if h[n - 1].body.role == User then n - 1 else LastUser(h, n - 1)
  }

  function InsertBlock(h: seq<Message>, block: string): seq<Message> {
    h[..InsertAt(h)] + [Summary(block)] + h[InsertAt(h)..]
  }

  method InsertSystemBlock(h: seq<Message>, block: string) returns (out: seq<Message>)
    ensures out == InsertBlock(h, block)
  {
    var at := |h|;
    var i := |h| - 1;
    while i >= 0
      invariant -1 <= i < |h| && forall k :: i < k < |h| ==> h[k].body.role != User
      invariant LastUser(h, i + 1) == InsertAt(h)
    {
      if h[i].body.role == User {
        return h[..i] + [Summary(block)] + h[i..];
      }
      i := i - 1;
    }
    out := h[..at] + [Summary(block)] + h[at..];
  }

  lemma {:induction false} InsertKeepsPairs(h: seq<Message>, block: string)
    requires WellPaired(h)
    ensures WellPaired(InsertBlock(h, block))
  {
    PairedCut(h, InsertAt(h));
    PairedOne(Summary(block));
    PairedConcat(h[..InsertAt(h)], [Summary(block)]);
    PairedConcat(h[..InsertAt(h)] + [Summary(block)], h[InsertAt(h)..]);
  }

  const MEMORY_BLOCK_PREFIX := "[记忆]"

  predicate MemoryBlock(m: Message) {
    m.body.role == System && MEMORY_BLOCK_PREFIX <= m.body.content
  }

  function Stripped(h: seq<Message>): seq<Message> {
    if h == [] then []
    else if MemoryBlock(h[|h| - 1]) then Stripped(h[..|h| - 1])
    else Stripped(h[..|h| - 1]) + [h[|h| - 1]]
  }

  ghost function NoBlockAt(h: seq<Message>): set<nat> {
    set k: nat | k < |h| && !(h[k].body.role == System && MEMORY_BLOCK_PREFIX <= h[k].body.content)
  }

  /** What is kept is every message that is no memory block, in order. */
  lemma {:induction false} StrippedIs(h: seq<Message>)
    ensures Keeps(h, NoBlockAt(h), Stripped(h))
  {
    if h == [] {
      KeepsNone<Message>(NoBlockAt(h));
    } else {
      var n := |h| - 1;
      StrippedIs(h[..n]);
      assert h == h[..n] + [h[n]];
      KeepsSnoc(h[..n], NoBlockAt(h[..n]), Stripped(h[..n]), h[n]);
      assert NoBlockAt(h) == NoBlockAt(h[..n]) + if MemoryBlock(h[n]) then {} else {n};
      assert NoBlockAt(h[..n]) + {} == NoBlockAt(h[..n]);
    }
  }

  method StripMemoryBlocks(msgs: seq<Message>) returns (out: seq<Message>)
    ensures out == Stripped(msgs)
  {
    out := [];
    for n := 0 to |msgs|
      invariant out == Stripped(msgs[..n])
    {
      assert msgs[..n + 1][..n] == msgs[..n];
      if MemoryBlock(msgs[n]) {
        continue;
      }
      out := out + [msgs[n]];
    }
    assert msgs[..|msgs|] == msgs;
  }

  lemma {:induction false} StrippedConcat(a: seq<Message>, b: seq<Message>)
    ensures Stripped(a + b) == Stripped(a) + Stripped(b)
  {
    if b == [] {
      assert a + b == a;
    } else {
      StrippedConcat(a, b[..|b| - 1]);
      assert (a + b)[..|a + b| - 1] == a + b[..|b| - 1];
    }
  }

  lemma {:induction false} StrippedNone(h: seq<Message>)
    requires forall k :: 0 <= k < |h| ==> !MemoryBlock(h[k])
    ensures Stripped(h) == h
  {
    if h != [] {
      StrippedNone(h[..|h| - 1]);
      assert h == h[..|h| - 1] + [h[|h| - 1]];
    }
  }

  lemma {:induction false} StripKeepsPairs(h: seq<Message>)
    requires WellPaired(h)
    ensures WellPaired(Stripped(h))
  {
    if h != [] {
      var n := if Calls(h[0].body) then |h[0].body.toolCalls| else 0;
      StripKeepsPairs(h[n + 1..]);
      assert h == h[..n + 1] + h[n + 1..];
      StrippedConcat(h[..n + 1], h[n + 1..]);
      StripFirst(h, n);
      PairedConcat(Stripped(h[..n + 1]), Stripped(h[n + 1..]));
    }
  }

  /** The first message and its results are stripped together or not at all. */
  lemma StripFirst(h: seq<Message>, n: nat)
    requires WellPaired(h) && h != [] && n == if Calls(h[0].body) then |h[0].body.toolCalls| else 0
    ensures n < |h| && WellPaired(Stripped(h[..n + 1]))
  {
    var block := h[..n + 1];
    if MemoryBlock(h[0]) {
      assert block[..0] == [];
    } else {
      forall k | 0 <= k < |block| ensures !MemoryBlock(block[k]) {
        if k > 0 { assert block[k] == h[1..n + 1][k - 1]; }
      }
      StrippedNone(block);
      assert block[1..n + 1] == h[1..n + 1] && block[n + 1..] == [];
    }
  }

  /** Injecting a memory block and stripping it again is stripping alone: it leaves no trace. */
  lemma {:induction false} InsertThenStrip(h: seq<Message>, block: string)
    requires MEMORY_BLOCK_PREFIX <= block
    ensures Stripped(InsertBlock(h, block)) == Stripped(h)
  {
    hide InsertAt;
    var a, b := h[..InsertAt(h)], h[InsertAt(h)..];
    StrippedConcat(a + [Summary(block)], b);
    StrippedConcat(a, [Summary(block)]);
    assert Stripped([Summary(block)]) == [] by { assert [Summary(block)][..0] == []; }
    StrippedConcat(a, b);
    assert a + b == h;
  }
}

/** What a run of the ReAct loop says: every answer of the model with the result of every one of its calls,
    and the one ending that applies. */
module ReactMeaning {
  import opened Messages
  import opened Events
  import opened Compressor
  import opened ToolPairing
  import opened ReactLoop

  /** The loop goes on after this reply. */
  predicate GoesOn(reply: Reply) {
    reply.Answered? && reply.body.toolCalls != []
  }

  /** The turn at which the loop ends; the number of turns when none ends it. */
  function EndOf(turns: seq<Turn>): (e: nat)
    ensures e <= |turns| && (forall k :: 0 <= k < e ==> GoesOn(turns[k].reply))
    ensures e < |turns| ==> !GoesOn(turns[e].reply)
  {
    if turns == [] || !GoesOn(turns[0].reply) then 0 else 1 + EndOf(turns[1..])
  }

  /** An answer and, behind it, for each of its calls the text that came back for that call. */
  ghost predicate Exchange(part: seq<Message>, reply: Reply) {
    && reply.Answered? && |reply.results| >= |reply.body.toolCalls| && |part| == 1 + |reply.body.toolCalls|
    && part[0] == Message("", reply.body)
    && forall k :: 0 <= k < |reply.body.toolCalls| ==>
         part[k + 1] == Message("", Body(ToolRole, reply.results[k], [], reply.body.toolCalls[k].id, "", ""))
  }

  predicate Says(m: Message, text: string) {
    m == Message("", Body(Assistant, text, [], "", "", ""))
  }

  /** The last message when this reply ends the loop. */
  ghost predicate EndingFor(m: Message, reply: Reply) {
    match reply
    case Failed(error) => Says(m, AGENT_ERROR + error)
    case NoResponse => Says(m, AGENT_ERROR + NO_RESPONSE)
    case NoChoices => Says(m, AGENT_ERROR + NO_CHOICES)
    case Answered(body, _) =>
      if body.content == "" then Says(m, AGENT_ERROR + NO_CONTENT)
      else m == Message("", body)
  }

  /** The last message of a run. */
  ghost predicate Ending(m: Message, turns: seq<Turn>, limit: nat) {
    if EndOf(turns) < |turns| then EndingFor(m, turns[EndOf(turns)].reply)
    else Says(m, ExhaustedNote(limit))
  }

  function Joined(parts: seq<seq<Message>>): seq<Message> {
    if parts == [] then [] else parts[0] + Joined(parts[1..])
  }

  /** The history at each turn, what each turn adds, and the end. */
  ghost predicate Trace(messages: seq<Message>, turns: seq<Turn>, limit: nat, hs: seq<seq<Message>>, parts: seq<seq<Message>>,
                        end: Message, out: seq<Message>) {
    var e := EndOf(turns);
    && |parts| == e && |hs| == e + 1 && hs[0] == messages
    && (forall k :: 0 <= k < e ==> Exchange(parts[k], turns[k].reply) && hs[k + 1] == RewrittenAll(hs[k], turns[k].rewrites) + parts[k])
    && Ending(end, turns, limit)
    && out == (if e < |turns| then RewrittenAll(hs[e], turns[e].rewrites) else hs[e]) + [end]
  }

  lemma ExchangeOf(reply: Reply)
    requires GoesOn(reply) && |reply.results| == |reply.body.toolCalls|
    ensures Exchange([Message("", reply.body)] + ToolResults(reply.body.toolCalls, reply.results), reply)
  {}

  /** The history of a run: turn by turn it is rewritten and then grows by the model's answer and exactly
      the results of its calls; and it closes with the final answer, or the note that applies. */
  lemma {:induction false} RunTraced(messages: seq<Message>, turns: seq<Turn>, limit: nat)
    returns (hs: seq<seq<Message>>, parts: seq<seq<Message>>, end: Message)
    requires forall k :: 0 <= k < |turns| ==> ValidTurn(turns[k])
    ensures Trace(messages, turns, limit, hs, parts, end, Loop(messages, turns, limit))
    decreases |turns|
  {
    if turns == [] || !GoesOn(turns[0].reply) {
      end := EndsAtOnce(messages, turns, limit);
      hs, parts := [messages], [];
    } else {
      assert ValidTurn(turns[0]);
      hide Trace, Exchange, RewrittenAll;
      var reply := turns[0].reply;
      var h := RewrittenAll(messages, turns[0].rewrites);
      var part := [Message("", reply.body)] + ToolResults(reply.body.toolCalls, reply.results);
      ExchangeOf(reply);
      assert h + part == h + [Message("", reply.body)] + ToolResults(reply.body.toolCalls, reply.results);
      var hs1, parts1, end1 := RunTraced(h + part, turns[1..], limit);
      hs, parts, end := [messages] + hs1, [part] + parts1, end1;
      TraceCons(messages, turns, limit, part, hs1, parts1, end1, Loop(h + part, turns[1..], limit));
    }
  }

  lemma {:induction false} EndsAtOnce(messages: seq<Message>, turns: seq<Turn>, limit: nat) returns (end: Message)
    requires (forall k :: 0 <= k < |turns| ==> ValidTurn(turns[k])) && (turns == [] || !GoesOn(turns[0].reply))
    ensures Trace(messages, turns, limit, [messages], [], end, Loop(messages, turns, limit))
  {
    hide RewrittenAll, Decimal, ExhaustedNote, EndingFor;
    if turns == [] {
      end := Note(ExhaustedNote(limit));
    } else {
      assert ValidTurn(turns[0]);
      end := EndsFor(messages, turns, limit);
    }
  }

  lemma {:induction false} EndsFor(messages: seq<Message>, turns: seq<Turn>, limit: nat) returns (end: Message)
    requires (forall k :: 0 <= k < |turns| ==> ValidTurn(turns[k])) && turns != [] && !GoesOn(turns[0].reply)
    ensures EndingFor(end, turns[0].reply)
    ensures Loop(messages, turns, limit) == RewrittenAll(messages, turns[0].rewrites) + [end]
  {
    hide RewrittenAll;
    assert ValidTurn(turns[0]);
    match turns[0].reply
    case Failed(error) => end := Note(AGENT_ERROR + error);
    case NoResponse => end := Note(AGENT_ERROR + NO_RESPONSE);
    case NoChoices => end := Note(AGENT_ERROR + NO_CHOICES);
    case Answered(body, _) => end := if body.content == "" then Note(AGENT_ERROR + NO_CONTENT) else Message("", body);
  }

  lemma TraceCons(messages: seq<Message>, turns: seq<Turn>, limit: nat, part: seq<Message>, hs: seq<seq<Message>>,
                  parts: seq<seq<Message>>, end: Message, out: seq<Message>)
    requires turns != [] && GoesOn(turns[0].reply) && Exchange(part, turns[0].reply)
    requires Trace(RewrittenAll(messages, turns[0].rewrites) + part, turns[1..], limit, hs, parts, end, out)
    ensures Trace(messages, turns, limit, [messages] + hs, [part] + parts, end, out)
  {
    hide RewrittenAll, Exchange;
    var e := EndOf(turns);
    forall k | 0 <= k < e
      ensures Exchange(([part] + parts)[k], turns[k].reply)
        && ([messages] + hs)[k + 1] == RewrittenAll(([messages] + hs)[k], turns[k].rewrites) + ([part] + parts)[k]
    {
      if k > 0 {
        assert turns[k] == turns[1..][k - 1];
        assert Exchange(parts[k - 1], turns[1..][k - 1].reply);
      }
    }
    if e < |turns| { assert turns[e] == turns[1..][e - 1]; }
  }

  // ---------------------------------------------------------------- what stays to the end

  lemma {:induction false} JoinedCons(parts: seq<seq<Message>>, i: nat)
    requires i < |parts|
    ensures Joined(parts[i..]) == parts[i] + Joined(parts[i + 1..])
  {
    assert parts[i..][1..] == parts[i + 1..];
  }

  /** From a turn on behind which nothing is rewritten, everything that was said stays as it was said. */
  lemma {:induction false} SaidStays(messages: seq<Message>, turns: seq<Turn>, limit: nat, hs: seq<seq<Message>>,
                                     parts: seq<seq<Message>>, end: Message, out: seq<Message>, i: nat)
    requires Trace(messages, turns, limit, hs, parts, end, out) && i <= EndOf(turns)
    requires forall k :: i < k <= EndOf(turns) && k < |turns| ==> turns[k].rewrites == []
    ensures out == (if i < |turns| then RewrittenAll(hs[i], turns[i].rewrites) else hs[i]) + Joined(parts[i..]) + [end]
    decreases EndOf(turns) - i
  {
    var e := EndOf(turns);
    if i == e {
      assert parts[i..] == [];
    } else {
      SaidStays(messages, turns, limit, hs, parts, end, out, i + 1);
      JoinedCons(parts, i);
      var h := RewrittenAll(hs[i], turns[i].rewrites);
      assert hs[i + 1] == h + parts[i];
      assert i + 1 < |turns| ==> RewrittenAll(hs[i + 1], []) == hs[i + 1];
      assert h + parts[i] + Joined(parts[i + 1..]) + [end] == h + (parts[i] + Joined(parts[i + 1..])) + [end];
    }
  }

  /** Without rewrites the history of a run is the prompt, the given history, the input, every exchange and
      the ending, and nothing else. */
  lemma {:induction false} RunSays(prompt: string, history: seq<Message>, input: string, turns: seq<Turn>, out: seq<Message>)
    returns (parts: seq<seq<Message>>, end: Message)
    requires forall k :: 0 <= k < |turns| ==> ValidTurn(turns[k]) && turns[k].rewrites == []
    requires Bodies(out) == Bodies(Loop(Start(prompt, history, input), turns, |turns|))
    ensures |parts| == EndOf(turns) && (forall k :: 0 <= k < |parts| ==> Exchange(parts[k], turns[k].reply))
    ensures Ending(end, turns, |turns|)
    ensures Bodies(out) == Bodies([Message("", Body(System, prompt, [], "", "", ""))] + history
                                  + [Message("", Body(User, input, [], "", "", ""))] + Joined(parts) + [end])
  {
    var hs;
    hs, parts, end := RunTraced(Start(prompt, history, input), turns, |turns|);
    SaidStays(Start(prompt, history, input), turns, |turns|, hs, parts, end, Loop(Start(prompt, history, input), turns, |turns|), 0);
    assert parts[0..] == parts;
    assert turns != [] ==> RewrittenAll(hs[0], []) == hs[0];
  }

  // ---------------------------------------------------------------- memory blocks

  /** Middlewares that inject memory blocks and nothing else. */
  predicate OnlyBlocks(rs: seq<Rewrite>) {
    forall k :: 0 <= k < |rs| ==> rs[k].Injects? && MEMORY_BLOCK_PREFIX <= rs[k].block
  }

  lemma {:induction false} BlocksLeaveNoTrace(h: seq<Message>, rs: seq<Rewrite>)
    requires OnlyBlocks(rs)
    ensures Stripped(RewrittenAll(h, rs)) == Stripped(h)
  {
    if rs != [] {
      BlocksLeaveNoTrace(h, rs[..|rs| - 1]);
      InsertThenStrip(RewrittenAll(h, rs[..|rs| - 1]), rs[|rs| - 1].block);
    }
  }

  lemma {:induction false} SaidIsKept(part: seq<Message>, reply: Reply)
    requires Exchange(part, reply) && reply.body.role == Assistant
    ensures Stripped(part) == part
  {
    forall k | 0 <= k < |part| ensures part[k].body.role != System {
      if k > 0 {
        var j := k - 1;
        assert part[j + 1] == Message("", Body(ToolRole, reply.results[j], [], reply.body.toolCalls[j].id, "", ""));
      }
    }
    NoBlocks(part);
  }

  lemma {:induction false} NoBlocks(ms: seq<Message>)
    requires forall k :: 0 <= k < |ms| ==> ms[k].body.role != System
    ensures Stripped(ms) == ms
  {
    if ms != [] {
      NoBlocks(ms[..|ms| - 1]);
      assert ms == ms[..|ms| - 1] + [ms[|ms| - 1]];
    }
  }

  /** With memory blocks injected at every turn, what the session keeps is the history it had without
      such blocks, the input, every exchange and the ending. */
  lemma {:induction false} SessionKeeps(messages: seq<Message>, turns: seq<Turn>, limit: nat, hs: seq<seq<Message>>,
                                        parts: seq<seq<Message>>, end: Message, out: seq<Message>, i: nat)
    requires Trace(messages, turns, limit, hs, parts, end, out) && i <= EndOf(turns)
    requires forall k :: 0 <= k < |turns| ==> OnlyBlocks(turns[k].rewrites) && ValidTurn(turns[k])
    ensures Stripped(out) == Stripped(hs[i]) + Joined(parts[i..]) + [end]
    decreases EndOf(turns) - i
  {
    hide Stripped, RewrittenAll, Exchange, OnlyBlocks, Ending, Joined;
    if i == EndOf(turns) {
      KeepsEnd(messages, turns, limit, hs, parts, end, out);
      JoinedNone(parts[i..]);
      assert Stripped(hs[i]) + [] + [end] == Stripped(hs[i]) + [end];
    } else {
      SessionKeeps(messages, turns, limit, hs, parts, end, out, i + 1);
      assert ValidTurn(turns[i]) && Exchange(parts[i], turns[i].reply) && hs[i + 1] == RewrittenAll(hs[i], turns[i].rewrites) + parts[i];
      KeepsPart(hs[i], turns[i], parts[i]);
      JoinedCons(parts, i);
      hide Trace;
      assert Stripped(hs[i]) + parts[i] + Joined(parts[i + 1..]) + [end] == Stripped(hs[i]) + (parts[i] + Joined(parts[i + 1..])) + [end];
    }
  }

  lemma JoinedNone(parts: seq<seq<Message>>)
    requires parts == []
    ensures Joined(parts) == []
  {}

  lemma {:induction false} KeepsPart(h: seq<Message>, turn: Turn, part: seq<Message>)
    requires ValidTurn(turn) && OnlyBlocks(turn.rewrites) && Exchange(part, turn.reply)
    ensures Stripped(RewrittenAll(h, turn.rewrites) + part) == Stripped(h) + part
  {
    BlocksLeaveNoTrace(h, turn.rewrites);
    SaidIsKept(part, turn.reply);
    StrippedConcat(RewrittenAll(h, turn.rewrites), part);
  }

  lemma EndSpeaks(turns: seq<Turn>, limit: nat, end: Message)
    requires Ending(end, turns, limit) && forall k :: 0 <= k < |turns| ==> ValidTurn(turns[k])
    ensures end.body.role == Assistant
  {
    if EndOf(turns) < |turns| { assert ValidTurn(turns[EndOf(turns)]); }
  }

  lemma {:induction false} KeepsEnd(messages: seq<Message>, turns: seq<Turn>, limit: nat, hs: seq<seq<Message>>,
                                    parts: seq<seq<Message>>, end: Message, out: seq<Message>)
    requires Trace(messages, turns, limit, hs, parts, end, out)
    requires forall k :: 0 <= k < |turns| ==> OnlyBlocks(turns[k].rewrites) && ValidTurn(turns[k])
    ensures Stripped(out) == Stripped(hs[EndOf(turns)]) + [end]
  {
    hide RewrittenAll, Exchange;
    EndSpeaks(turns, limit, end);
    hide Ending;
    var e := EndOf(turns);
    if e < |turns| {
      assert ValidTurn(turns[e]);
      BlocksLeaveNoTrace(hs[e], turns[e].rewrites);
    }
    NoBlocks([end]);
    StrippedConcat(if e < |turns| then RewrittenAll(hs[e], turns[e].rewrites) else hs[e], [end]);
  }

  // ---------------------------------------------------------------- the rewrites

  /** Rewrites come one after another; an injection adds one system message before the last user message,
      or at the end, and changes nothing else; a compression that fails changes nothing. */
  lemma {:induction false} RewritesTraced(h: seq<Message>, rs: seq<Rewrite>) returns (hs: seq<seq<Message>>)
    ensures |hs| == |rs| + 1 && hs[0] == h && hs[|rs|] == RewrittenAll(h, rs)
    ensures forall k :: 0 <= k < |rs| ==> RewrittenBy(hs[k], rs[k], hs[k + 1])
  {
    if rs == [] {
      hs := [h];
    } else {
      var n := |rs| - 1;
      var before := RewritesTraced(h, rs[..n]);
      var next := RewrittenAll(h, rs);
      hs := before + [next];
      forall k | 0 <= k < |rs| ensures RewrittenBy(hs[k], rs[k], hs[k + 1]) {
        if k < n {
          assert RewrittenBy(before[k], rs[..n][k], before[k + 1]);
        } else {
          RewriteOne(before[n], rs[n]);
        }
      }
    }
  }

  ghost predicate RewrittenBy(h: seq<Message>, r: Rewrite, t: seq<Message>) {
    match r
    case Injects(block) =>
      exists at :: 0 <= at <= |h| && InsertedAt(h, at, block, t)
    case Compacts(keepLast, summary) =>
      t == (match Compress(h, keepLast, true, summary) case None => h case Some(out) => out)
  }

  ghost predicate InsertedAt(h: seq<Message>, at: nat, block: string, t: seq<Message>)
    requires at <= |h|
  {
    && t == h[..at] + [Message("", Body(System, block, [], "", "", ""))] + h[at..]
    && (at < |h| ==> h[at].body.role == User) && (forall k :: at < k < |h| ==> h[k].body.role != User)
    && (at == |h| ==> forall k :: 0 <= k < |h| ==> h[k].body.role != User)
  }

  lemma RewriteOne(h: seq<Message>, r: Rewrite)
    ensures RewrittenBy(h, r, Rewritten(h, r))
  {
    if r.Injects? { assert InsertedAt(h, InsertAt(h), r.block, Rewritten(h, r)); }
  }
}

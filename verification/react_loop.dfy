/** The message history of the ReAct loop (ai-core/agent/agent.go:40-162): whatever the model
    answers and whatever the middlewares rewrite, calls and results stay paired. */
module ReactLoop {
  import opened Messages
  import opened Events
  import opened Compressor
  import opened ToolPairing

  /** What a BeforeModel middleware does to the history. */
  datatype Rewrite = Compacts(keepLast: int, summary: Option<string>) | Injects(block: string)

  /** What comes back for one iteration: an error, nothing, no choice to pick from, or a message and, for
      its tool calls, the texts their executions gave (results, refusals and aborts alike). */
  datatype Reply = Failed(error: string) | NoResponse | NoChoices | Answered(body: Body, results: seq<string>)

  datatype Turn = Turn(rewrites: seq<Rewrite>, reply: Reply)

  const AGENT_ERROR := "⚠ [harness] ✘ agent error: "
  const NO_RESPONSE := "provider returned nil response"
  const NO_CHOICES := "model returned empty response (backend unhealthy or malformed history)"
  const NO_CONTENT := "model returned empty content without tool calls"

  function Decimal(n: nat): string {
    if n < 10 then ["0123456789"[n]] else Decimal(n / 10) + ["0123456789"[n % 10]]
  }

  function ExhaustedNote(limit: nat): string {
    "⚠ [harness] 已达最大迭代次数 (" + Decimal(limit) + ")，未能得到最终答复。可 /compact 后继续，或把任务拆小。"
  }

  function Note(text: string): Message {
    Message("", Body(Assistant, text, [], "", "", ""))
  }

  function SystemPrompt(prompt: string): Message {
    Message("", Body(System, prompt, [], "", "", ""))
  }

  function ToolResult(call: ToolCall, text: string): Message {
    Message("", Body(ToolRole, text, [], call.id, "", ""))
  }

  function ToolResults(calls: seq<ToolCall>, texts: seq<string>): (r: seq<Message>)
    requires |texts| >= |calls|
    ensures |r| == |calls|
    ensures forall k :: 0 <= k < |calls| ==>
      r[k].id == "" && r[k].body == Body(ToolRole, texts[k], [], calls[k].id, "", "")
  {
    if calls == [] then []
    else ToolResults(calls[..|calls| - 1], texts) + [ToolResult(calls[|calls| - 1], texts[|calls| - 1])]
  }

  /** A provider answers as the assistant; every call is executed. */
  predicate ValidTurn(t: Turn) {
    t.reply.Answered? ==> t.reply.body.role == Assistant && |t.reply.results| == |t.reply.body.toolCalls|
  }

  function Rewritten(h: seq<Message>, r: Rewrite): seq<Message> {
    match r
    case Compacts(keepLast, summary) =>
      var out := Compress(h, keepLast, true, summary);
      if out.None? then h else out.value
    case Injects(block) => InsertBlock(h, block)
  }

  function RewrittenAll(h: seq<Message>, rs: seq<Rewrite>): seq<Message> {
    if rs == [] then h else Rewritten(RewrittenAll(h, rs[..|rs| - 1]), rs[|rs| - 1])
  }

  /** The history at the end of a run that sees these turns; limit: the number of iterations allowed. */
  function Loop(messages: seq<Message>, turns: seq<Turn>, limit: nat): seq<Message>
    requires forall k :: 0 <= k < |turns| ==> ValidTurn(turns[k])
    decreases |turns|
  {
    if turns == [] then messages + [Note(ExhaustedNote(limit))]
    else
      var h := RewrittenAll(messages, turns[0].rewrites);
      assert ValidTurn(turns[0]);
      match turns[0].reply
      case Failed(error) => h + [Note(AGENT_ERROR + error)]
      case NoResponse => h + [Note(AGENT_ERROR + NO_RESPONSE)]
      case NoChoices => h + [Note(AGENT_ERROR + NO_CHOICES)]
      case Answered(body, results) =>
        if body.toolCalls == [] then h + [if body.content == "" then Note(AGENT_ERROR + NO_CONTENT) else Message("", body)]
        else Loop(h + [Message("", body)] + ToolResults(body.toolCalls, results), turns[1..], limit)
  }

  function Start(prompt: string, history: seq<Message>, input: string): seq<Message> {
    [SystemPrompt(prompt)] + history + [Message("", Body(User, input, [], "", "", ""))]
  }

  /** turns holds what each iteration up to the limit would see; ids are the random ids for stamping. */
  method Run(prompt: string, history: seq<Message>, input: string, turns: seq<Turn>, ids: seq<string>) returns (out: seq<Message>)
    requires forall k :: 0 <= k < |turns| ==> ValidTurn(turns[k])
    requires |ids| >= |Loop(Start(prompt, history, input), turns, |turns|)|
    ensures Bodies(out) == Bodies(Loop(Start(prompt, history, input), turns, |turns|))
  {
    var messages := Start(prompt, history, input);
    var iter, finished := 0, false;
    while iter < |turns| && !finished
      invariant iter <= |turns|
      invariant Loop(Start(prompt, history, input), turns, |turns|) == if finished then messages else Loop(messages, turns[iter..], |turns|)
      decreases |turns| - iter, !finished
    {
      var t := turns[iter];
      assert turns[iter..][1..] == turns[iter + 1..];
      messages := RewriteAll(messages, t.rewrites);
      match t.reply {
        case Failed(error) =>
          messages := messages + [Note(AGENT_ERROR + error)];
          finished := true;
        case NoResponse =>
          messages := messages + [Note(AGENT_ERROR + NO_RESPONSE)];
          finished := true;
        case NoChoices =>
          messages := messages + [Note(AGENT_ERROR + NO_CHOICES)];
          finished := true;
        case Answered(body, results) =>
          if |body.toolCalls| == 0 {
            if body.content == "" {
              messages := messages + [Note(AGENT_ERROR + NO_CONTENT)];
            } else {
              messages := messages + [Message("", body)];
            }
            finished := true;
          } else {
            messages := messages + [Message("", body)];
            messages := AppendResults(messages, body.toolCalls, results);
            iter := iter + 1;
          }
      }
    }
    if !finished { messages := messages + [Note(ExhaustedNote(|turns|))]; }
    out := StampMessageIDs(messages, ids);
  }

  method RewriteAll(h: seq<Message>, rs: seq<Rewrite>) returns (out: seq<Message>)
    ensures out == RewrittenAll(h, rs)
  {
    out := h;
    for n := 0 to |rs|
      invariant out == RewrittenAll(h, rs[..n])
    {
      assert rs[..n + 1][..n] == rs[..n];
      match rs[n] {
        case Compacts(keepLast, summary) =>
          var compacted := CompressHistory(out, keepLast, true, summary);
          if compacted.Some? { out := compacted.value; }
        case Injects(block) =>
          out := InsertSystemBlock(out, block);
      }
    }
    assert rs[..|rs|] == rs;
  }

  method AppendResults(messages: seq<Message>, calls: seq<ToolCall>, texts: seq<string>) returns (out: seq<Message>)
    requires |texts| >= |calls|
    ensures out == messages + ToolResults(calls, texts)
    ensures |out| == |messages| + |calls| && out[..|messages|] == messages
    ensures forall k :: 0 <= k < |calls| ==>
      out[|messages| + k].body == Body(ToolRole, texts[k], [], calls[k].id, "", "")
  {
    out := messages;
    for n := 0 to |calls|
      invariant out == messages + ToolResults(calls[..n], texts)
    {
      assert calls[..n + 1][..n] == calls[..n];
      out := out + [ToolResult(calls[n], texts[n])];
    }
    assert calls[..|calls|] == calls;
  }

  method StampMessageIDs(msgs: seq<Message>, ids: seq<string>) returns (out: seq<Message>)
    requires |ids| >= |msgs|
    ensures Bodies(out) == Bodies(msgs)
    ensures forall k :: 0 <= k < |msgs| ==> out[k].id == if msgs[k].id == "" then ids[k] else msgs[k].id
  {
    out := [];
    for n := 0 to |msgs|
      invariant |out| == n
      invariant forall k :: 0 <= k < n ==> out[k] == Message(if msgs[k].id == "" then ids[k] else msgs[k].id, msgs[k].body)
    {
      out := out + [Message(if msgs[n].id == "" then ids[n] else msgs[n].id, msgs[n].body)];
    }
  }

  // ---------------------------------------------------------------- pairing over whole runs

  ghost predicate Headed(h: seq<Message>, prompt: string) {
    h != [] && h[0] == SystemPrompt(prompt) && WellPaired(h)
  }

  lemma RewriteKeeps(h: seq<Message>, r: Rewrite, prompt: string)
    requires Headed(h, prompt)
    ensures Headed(Rewritten(h, r), prompt)
  {
    match r
    case Compacts(keepLast, summary) => CompressKeepsPairs(h, keepLast, true, summary);
    case Injects(block) => InsertKeepsPairs(h, block);
  }

  lemma {:induction false} RewritesKeep(h: seq<Message>, rs: seq<Rewrite>, prompt: string)
    requires Headed(h, prompt)
    ensures Headed(RewrittenAll(h, rs), prompt)
  {
    if rs != [] {
      RewritesKeep(h, rs[..|rs| - 1], prompt);
      RewriteKeeps(RewrittenAll(h, rs[..|rs| - 1]), rs[|rs| - 1], prompt);
    }
  }

  lemma {:induction false} ResultsAnswer(calls: seq<ToolCall>, texts: seq<string>)
    requires |texts| >= |calls|
    ensures Answers(calls, ToolResults(calls, texts))
  {
    if calls != [] { ResultsAnswer(calls[..|calls| - 1], texts); }
  }

  lemma {:induction false} Extends(h: seq<Message>, more: seq<Message>, prompt: string)
    requires Headed(h, prompt) && WellPaired(more)
    ensures Headed(h + more, prompt)
  {
    PairedConcat(h, more);
  }

  lemma {:induction false} CallAndResults(body: Body, texts: seq<string>)
    requires Calls(body) && |texts| == |body.toolCalls|
    ensures WellPaired([Message("", body)] + ToolResults(body.toolCalls, texts))
  {
    var block := [Message("", body)] + ToolResults(body.toolCalls, texts);
    ResultsAnswer(body.toolCalls, texts);
    assert block[1..|body.toolCalls| + 1] == ToolResults(body.toolCalls, texts);
    assert block[|body.toolCalls| + 1..] == [];
  }

  lemma {:induction false} LoopKeeps(messages: seq<Message>, turns: seq<Turn>, limit: nat, prompt: string)
    requires Headed(messages, prompt) && forall k :: 0 <= k < |turns| ==> ValidTurn(turns[k])
    ensures Headed(Loop(messages, turns, limit), prompt)
    decreases |turns|
  {
    if turns == [] {
      PairedOne(Note(ExhaustedNote(limit)));
      Extends(messages, [Note(ExhaustedNote(limit))], prompt);
    } else {
      var h := RewrittenAll(messages, turns[0].rewrites);
      RewritesKeep(messages, turns[0].rewrites, prompt);
      assert ValidTurn(turns[0]);
      match turns[0].reply {
        case Failed(error) =>
          PairedOne(Note(AGENT_ERROR + error));
          Extends(h, [Note(AGENT_ERROR + error)], prompt);
        case NoResponse =>
          PairedOne(Note(AGENT_ERROR + NO_RESPONSE));
          Extends(h, [Note(AGENT_ERROR + NO_RESPONSE)], prompt);
        case NoChoices =>
          PairedOne(Note(AGENT_ERROR + NO_CHOICES));
          Extends(h, [Note(AGENT_ERROR + NO_CHOICES)], prompt);
        case Answered(body, results) =>
          if body.toolCalls == [] {
            var last := if body.content == "" then Note(AGENT_ERROR + NO_CONTENT) else Message("", body);
            PairedOne(last);
            Extends(h, [last], prompt);
          } else {
            CallAndResults(body, results);
            Extends(h, [Message("", body)] + ToolResults(body.toolCalls, results), prompt);
            assert h + ([Message("", body)] + ToolResults(body.toolCalls, results))
              == h + [Message("", body)] + ToolResults(body.toolCalls, results);
            LoopKeeps(h + [Message("", body)] + ToolResults(body.toolCalls, results), turns[1..], limit, prompt);
          }
      }
    }
  }

  /** A run over a paired history ends in a paired history that still opens with the system prompt,
      and so does what the session keeps of it: everything but the prompt and the memory blocks. */
  lemma {:induction false} RunKeepsPairs(prompt: string, history: seq<Message>, input: string, turns: seq<Turn>, out: seq<Message>)
    requires WellPaired(history) && forall k :: 0 <= k < |turns| ==> ValidTurn(turns[k])
    requires Bodies(out) == Bodies(Loop(Start(prompt, history, input), turns, |turns|))
    ensures WellPaired(out) && |out| > 0 && out[0].body == SystemPrompt(prompt).body
    ensures WellPaired(out[1..]) && WellPaired(Stripped(out[1..]))
  {
    var user := Message("", Body(User, input, [], "", "", ""));
    PairedOne(SystemPrompt(prompt));
    PairedOne(user);
    PairedConcat([SystemPrompt(prompt)], history);
    Extends([SystemPrompt(prompt)] + history, [user], prompt);
    LoopKeeps(Start(prompt, history, input), turns, |turns|, prompt);
    var end := Loop(Start(prompt, history, input), turns, |turns|);
    PairedBodies(end, out);
    assert |out| == |Bodies(out)| == |end|;
    assert out[0].body == Bodies(out)[0] == end[0].body;
    StripKeepsPairs(out[1..]);
  }
}

/** Conversation messages (ai-core/core) as the store, the compressor and the agent loop
    see them. Everything but the id is the body, so equality of bodies is equality up to ids. */
module Messages {
  datatype Role = System | User | Assistant | ToolRole | Named(name: string)

  datatype ToolCall = ToolCall(id: string, name: string, args: string)

  datatype Body = Body(role: Role, content: string, toolCalls: seq<ToolCall>, toolCallId: string,
                       thinking: string, custom: string)

  datatype Message = Message(id: string, body: Body)

  function SummaryBody(summary: string): Body {
    Body(System, summary, [], "", "", "")
  }

  function Bodies(ms: seq<Message>): (r: seq<Body>)
    ensures |r| == |ms| && forall i :: 0 <= i < |ms| ==> r[i] == ms[i].body
  {
    seq(|ms|, i requires 0 <= i < |ms| => ms[i].body)
  }

  lemma BodiesConcat(a: seq<Message>, b: seq<Message>)
    ensures Bodies(a + b) == Bodies(a) + Bodies(b)
  {}
}

/** The router of the agent graph: after the model speaks, run tools or stop. */
module Agent {
  datatype ToolCall = ToolCall(name: string, args: map<string, string>)

  /** A chat message; only a model reply carries tool calls. */
  datatype Message = Message(content: string, toolCalls: seq<ToolCall>)

  datatype Route = Tools | End

  /** `should_continue`: route to the tool node exactly when the last message asks for a tool. */
  function ShouldContinue(messages: seq<Message>): (r: Route)
    requires |messages| > 0
    ensures r == Tools <==> messages[|messages| - 1].toolCalls != []
  {
    if messages[|messages| - 1].toolCalls != [] then Tools else End
  }
}

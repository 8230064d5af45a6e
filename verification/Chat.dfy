/** The messages exchanged with a chat model. */
module Chat {

  datatype ToolCall = ToolCall(id: string, name: string, arguments: string)

  datatype Role = System | User | Assistant | Tool

  datatype Message = Message(role: Role, content: string, toolCalls: seq<ToolCall>, toolCallId: string)

  /** A message that is text alone. */
  function Say(role: Role, content: string): Message {
    Message(role, content, [], "")
  }
}

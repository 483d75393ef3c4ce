/** The chat-completion records exchanged with the model provider. */
module Chat {
  /** The four roles a message can carry. */
  datatype Role = System | User | Assistant | Tool

  /** A function call requested by the model: its id, the tool name and the raw JSON arguments. */
  datatype ToolCall = ToolCall(id: string, name: string, arguments: string)

  /** One chat message; `toolCalls` is used by assistant messages, `toolCallId` by tool messages. */
  datatype Message = Message(role: Role, content: string, toolCalls: seq<ToolCall>, toolCallId: string)

  type History = seq<Message>

  function SystemMessage(content: string): (m: Message)
    ensures m.role == System && m.content == content && m.toolCalls == []
  {
    Message(System, content, [], "")
  }

  function UserMessage(content: string): (m: Message)
    ensures m.role == User && m.content == content && m.toolCalls == []
  {
    Message(User, content, [], "")
  }

  function AssistantMessage(content: string, calls: seq<ToolCall>): (m: Message)
    ensures m.role == Assistant && m.content == content && m.toolCalls == calls
  {
    Message(Assistant, content, calls, "")
  }

  function ToolMessage(content: string, id: string): (m: Message)
    ensures m.role == Tool && m.content == content && m.toolCallId == id
  {
    Message(Tool, content, [], id)
  }
}

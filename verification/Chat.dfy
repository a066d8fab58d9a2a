/** Chat messages exchanged with the language model (src/llm/provider.rs). */
module Wrappers {

  datatype Option<+T> = None | Some(value: T)
}

module Chat {
  import opened Wrappers

  datatype Role = System | User | Assistant | Tool

  /** A tool invocation proposed by the model; `arguments` is its JSON text. */
  datatype ToolCall = ToolCall(id: string, name: string, arguments: string)

  /** `toolCalls == []` stands for the absent field: a message never carries an empty list. */
  datatype ChatMessage = ChatMessage(
    role: Role, content: string, toolCallId: Option<string>, name: Option<string>, toolCalls: seq<ToolCall>)

  function SystemMessage(content: string): ChatMessage {
    ChatMessage(System, content, None, None, [])
  }

  function UserMessage(content: string): ChatMessage {
    ChatMessage(User, content, None, None, [])
  }

  function AssistantMessage(content: string): ChatMessage {
    ChatMessage(Assistant, content, None, None, [])
  }

  function AssistantWithToolCalls(content: Option<string>, calls: seq<ToolCall>): ChatMessage {
    ChatMessage(Assistant, if content.Some? then content.value else "", None, None, calls)
  }

  function ToolResultMessage(callId: string, name: string, content: string): ChatMessage {
    ChatMessage(Tool, content, Some(callId), Some(name), [])
  }

  /** Unicode White_Space, the test behind `trim` and `split_whitespace`. */
  predicate IsWhitespace(c: char) {
    var n := c as int;
    || 0x9 <= n <= 0xD || n == 0x20 || n == 0x85 || n == 0xA0 || n == 0x1680
    || 0x2000 <= n <= 0x200A || n == 0x2028 || n == 0x2029 || n == 0x202F || n == 0x205F || n == 0x3000
  }
}

/** Chat messages and the builder that accumulates them (internal/services/llm/llm.go:23-60,
    internal/services/llm/message_builder.go). */
module Messages {
  datatype Role = System | User | Assistant | ToolRole

  /** A call as the model issued it. Every call has the type "function". */
  datatype ToolCall = ToolCall(id: string, name: string, arguments: string)

  datatype ChatMessage = ChatMessage(role: Role, content: string, toolCalls: seq<ToolCall>, toolCallID: string)

  function SystemMessage(content: string): ChatMessage { ChatMessage(System, content, [], "") }

  function UserMessage(content: string): ChatMessage { ChatMessage(User, content, [], "") }

  function AssistantMessage(content: string, calls: seq<ToolCall>): ChatMessage {
    ChatMessage(Assistant, content, calls, "")
  }

  function ToolMessage(id: string, result: string): ChatMessage { ChatMessage(ToolRole, result, [], id) }

  /** A system prompt is a message only when it is not empty. */
  function Opening(systemPrompt: string): seq<ChatMessage> {
    if |systemPrompt| > 0 then [SystemMessage(systemPrompt)] else []
  }

  class MessageBuilder {
    var messages: seq<ChatMessage>

    constructor (systemPrompt: string)
      ensures messages == Opening(systemPrompt)
      ensures messages == if systemPrompt == "" then [] else [ChatMessage(System, systemPrompt, [], "")]
    {
      messages := [];
      new;
      if |systemPrompt| > 0 {
        messages := messages + [SystemMessage(systemPrompt)];
      }
    }

    method AddUserMessage(content: string) returns (b: MessageBuilder)
      modifies this
      ensures b == this && messages == old(messages) + [UserMessage(content)]
      ensures messages == old(messages) + [ChatMessage(User, content, [], "")]
    {
      messages := messages + [UserMessage(content)];
      return this;
    }

    method AddAssistantMessage(content: string, toolCalls: seq<ToolCall>) returns (b: MessageBuilder)
      modifies this
      ensures b == this && messages == old(messages) + [AssistantMessage(content, toolCalls)]
      ensures messages == old(messages) + [ChatMessage(Assistant, content, toolCalls, "")]
    {
      var msg := ChatMessage(Assistant, content, [], "");
      if |toolCalls| > 0 {
        msg := msg.(toolCalls := toolCalls);
      }
      messages := messages + [msg];
      return this;
    }

    method AddToolResult(toolCallID: string, result: string) returns (b: MessageBuilder)
      modifies this
      ensures b == this && messages == old(messages) + [ToolMessage(toolCallID, result)]
      ensures messages == old(messages) + [ChatMessage(ToolRole, result, [], toolCallID)]
    {
      messages := messages + [ToolMessage(toolCallID, result)];
      return this;
    }

    method AddMessages(more: seq<ChatMessage>) returns (b: MessageBuilder)
      modifies this
      ensures b == this && messages == old(messages) + more
    {
      messages := messages + more;
      return this;
    }

    method Build() returns (r: seq<ChatMessage>)
      ensures r == messages
    {
      return messages;
    }
  }
}

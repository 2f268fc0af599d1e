/** Conversation messages, as every part of the runtime sees them. */
module Messages {
  import opened Common

  type Id = string
  type Time = int

  datatype Role = SystemRole | UserRole | AssistantRole | ToolRole

  datatype Origin =
    | Conversation
    | ToolMedia
    | ToolDelivery
    | JobResult
    | UserInteraction
    | HookFeedback

  datatype ToolCall = ToolCall(id: Id, name: string, arguments: string)

  datatype Message = Message(
    role: Role,
    content: string,
    timestamp: Option<Time>,
    toolCalls: seq<ToolCall>,
    toolCallId: Option<Id>,
    origin: Origin)
  {
    predicate UserAuthored() {
      role == UserRole && (origin == Conversation || origin == UserInteraction)
    }
  }
}

/**
 * Chat messages as the client keeps them in memory and in conversation files,
 * and the two small failure wrappers the rest of the model uses.
 */
module Messages {

  /** One turn of a conversation: a role string and its text. Roles are kept as
      strings because a conversation file may carry any role. */
  datatype Message = Message(role: string, content: string)

  const SystemRole: string := "system"
  const UserRole: string := "user"
  const AssistantRole: string := "assistant"

  datatype Option<+T> = None | Some(value: T)

  datatype Result<+T, +E> = Success(value: T) | Failure(error: E)
}

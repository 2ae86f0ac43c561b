/** Chat messages and the outcome of a chat-completion call. The language
    model itself is not modelled: each call's outcome is an input. */
module Chat {
  import opened Base

  const UserRole: string := "user"
  const AssistantRole: string := "assistant"
  const SystemRole: string := "system"

  /** A transcript message as a dictionary: `role` and `content` always,
      `timestamp` and `turn` only when the producer records them. */
  datatype Msg = Msg(role: string, content: string, timestamp: Option<string>, turn: Option<int>)

  /** A `{"role": ..., "content": ...}` message. */
  function Plain(role: string, content: string): Msg {
    Msg(role, content, None, None)
  }

  /** What `client.chat.completions.create(...)` produced: an exception, or a
      response whose first choice has (possibly `None`) content. */
  datatype Completion = CallFailed | Returned(content: Option<string>)
}

/** Messages exchanged with the chat-completion service and kept in session memory
    (main.py:23, 56-61, 100-112). */
module Chat {

  /** The role tag of a message: the fixed system prompt, the caller, or the model. */
  datatype Role = System | User | Assistant

  /** One `{role, content}` entry. */
  datatype Message = Message(role: Role, content: string)

  /** A value, or the error raised in its place. */
  datatype Result<T, E> = Ok(value: T) | Err(error: E)

  /** Python's `not s` on an optional string: `None` and `""` are both falsy. */
  predicate Present(s: Option<string>)
  {
    s.Some? && s.value != ""
  }

  datatype Option<T> = None | Some(value: T)
}

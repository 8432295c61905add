/** Chat-completion messages as the bot stores and sends them. */
module Chat {
  import opened Json

  /** The `role` of a chat message. */
  datatype Speaker = System | Assistant | User

  /** One `{'role': ..., 'content': ...}` entry. The content is kept as the
      decoded JSON value because the LLM's `message_to_user` is stored as-is. */
  datatype Entry = Entry(role: Speaker, content: Json)
}

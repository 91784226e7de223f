/** A row of the chat message table the API handlers and the socket server write and read. */
module Store {
  import opened Wrappers

  /** A stored chat message; the timestamp is the instant in milliseconds. */
  datatype StoredMessage = StoredMessage(
    fromUserId: string,
    toUserId: string,
    username: Option<string>,
    avatarUrl: Option<string>,
    text: string,
    timestamp: int)
}

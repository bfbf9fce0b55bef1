/**
 * `ChatEvent` from `src/services/chat/mod.rs` and the one text line the
 * chat's handler formats for each variant.
 */
module Events {
  import opened Users

  /** The closed set of events the chat actor handles. */
  datatype ChatEvent =
    | UserJoined(user: User)
    | UserLeft(id: Uuid)
    | MessageSent(authorId: Uuid, content: string)

  const JoinPrefix: string := "!! << "
  const JoinSuffix: string := " joined the chat >> !!"
  const LeftSuffix: string := " left the chat"
  const Separator: string := ": "

  function JoinLine(id: Uuid): string {
    JoinPrefix + id.Display() + JoinSuffix
  }

  function LeftLine(id: Uuid): string {
    id.Display() + LeftSuffix
  }

  function MessageLine(authorId: Uuid, content: string): string {
    authorId.Display() + Separator + content
  }

  /** The line `Handler<ChatEvent>::handle` builds in its `match`. */
  function Line(e: ChatEvent): string {
    match e
    case UserJoined(user) => JoinLine(user.Id())
    case UserLeft(id) => LeftLine(id)
    case MessageSent(authorId, content) => MessageLine(authorId, content)
  }
}

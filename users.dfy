/**
 * The value side of `src/services/chat/user.rs`: the `Uuid` newtype, the
 * `User` record that the chat keeps clones of, the `ChatMessage` that
 * carries pushed text, and `User::send`, the guarded push to a connection.
 */
module Users {

  datatype Option<+T> = None | Some(value: T)

  /** The address of a running user actor; `ctx.address().recipient()` yields one. */
  type Address = nat

  /** `Uuid(String)`: its `Display` and `Deref` both expose the wrapped string. */
  datatype Uuid = Uuid(text: string) {
    function Display(): string { text }
  }

  /** `impl From<&str> for Uuid`: the displayed string of the result is the argument. */
  function UuidFrom(s: string): (u: Uuid)
    ensures u.Display() == s
  {
    Uuid(s)
  }

  /** Wrapping and displaying are mutually inverse. */
  lemma UuidRoundTrip(u: Uuid, s: string)
    ensures UuidFrom(u.Display()) == u
    ensures UuidFrom(s).Display() == s
  {
  }

  /** The text pushed to one client; `impl Into<ChatMessage> for String`. */
  datatype ChatMessage = ChatMessage(text: string)

  function IntoChatMessage(s: string): (m: ChatMessage)
    ensures m.text == s
  {
    ChatMessage(s)
  }

  /** One `do_send` of a `ChatMessage` to the actor at `to`. */
  datatype Delivery = Delivery(to: Address, message: ChatMessage)

  /**
   * A clone of the `User` actor's state. The `chat` address is left out:
   * there is one chat. `connection` is `None` until `started` runs.
   */
  datatype User = User(id: Uuid, connection: Option<Address>) {

    /** `User::id`: the identity, as it is. */
    function Id(): Uuid { id }

    /**
     * `User::send`: nothing without a connection; otherwise exactly one
     * delivery of the unchanged text to that connection.
     */
    function Send(message: string): (out: seq<Delivery>)
      ensures |out| == (if connection.Some? then 1 else 0)
      ensures forall d :: d in out ==> Some(d.to) == connection && d.message.text == message
    {
      match connection
      case None => []
      case Some(c) => [Delivery(c, IntoChatMessage(message))]
    }
  }

  predicate IsHexDigit(c: char) {
    '0' <= c <= '9' || 'a' <= c <= 'f'
  }

  /**
   * The canonical hyphenated lower-case form that `User::with_chat` renders
   * a version-4 UUID in: 36 characters, hyphens at 8, 13, 18 and 23.
   */
  predicate IsHyphenatedUuid(s: string) {
    |s| == 36 &&
    forall i :: 0 <= i < 36 ==>
      if i == 8 || i == 13 || i == 18 || i == 23 then s[i] == '-' else IsHexDigit(s[i])
  }
}

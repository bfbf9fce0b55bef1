/**
 * The `User` actor of `src/services/chat/user.rs`: created without a
 * connection, it installs its own address when started and announces
 * itself, announces its leaving when stopping, writes pushed text to its
 * client, and turns inbound websocket frames into chat events.
 *
 * The events it sends to the chat are recorded in `toChat`, the frames it
 * writes to its client in `toClient`, and a `ctx.stop()` in `stopRequested`.
 */
module Sessions {
  import opened Users
  import opened Events

  /** A websocket close reason: a close code and an optional description. */
  datatype CloseReason = CloseReason(code: nat, description: Option<string>)

  /** The websocket message kinds a session can receive. */
  datatype WsMessage =
    | Text(text: string)
    | Binary(data: seq<bv8>)
    | Continuation(data: seq<bv8>)
    | Ping(data: seq<bv8>)
    | Pong(data: seq<bv8>)
    | Close(reason: Option<CloseReason>)
    | Nop

  datatype ProtocolError = ProtocolError(description: string)

  /** One item of the inbound stream: a message or a protocol error. */
  datatype Inbound = Received(message: WsMessage) | Failed(error: ProtocolError)

  /** What the session writes to its client. */
  datatype Frame = TextFrame(text: string) | CloseFrame(reason: Option<CloseReason>)

  /** What `stopping` answers the runtime. */
  datatype Running = Stop | Continue

  /** The event an inbound item turns into, if any. */
  function InboundEvents(id: Uuid, m: Inbound): (es: seq<ChatEvent>)
    ensures |es| <= 1
    ensures |es| == 1 <==> m.Received? && m.message.Text?
    ensures |es| == 1 ==> es[0] == MessageSent(id, m.message.text)
  {
    match m
    case Received(Text(text)) => [MessageSent(id, text)]
    case _ => []
  }

  /** The items that close a session. */
  predicate IsClose(m: Inbound) {
    m.Received? && m.message.Close?
  }

  class UserActor {
    const id: Uuid
    var connection: Option<Address>
    var toChat: seq<ChatEvent>
    var toClient: seq<Frame>
    var stopRequested: bool

    /** The `self.clone()` the actor hands to the chat. */
    function Clone(): User
      reads this
    {
      User(id, connection)
    }

    /**
     * `User::with_chat`: the id is the fresh string the caller supplies, and
     * there is no connection yet.
     */
    constructor WithChat(freshId: string)
      ensures id == UuidFrom(freshId) && id.Display() == freshId
      ensures connection == None
      ensures toChat == [] && toClient == [] && !stopRequested
    {
      id := UuidFrom(freshId);
      connection := None;
      toChat := [];
      toClient := [];
      stopRequested := false;
    }

    /**
     * `started`: installs the actor's own address as connection first, so
     * the one `UserJoined` clone it sends has that connection and the id.
     */
    method Started(ownAddress: Address)
      modifies this
      ensures connection == Some(ownAddress)
      ensures toChat == old(toChat) + [UserJoined(User(id, Some(ownAddress)))]
      ensures toClient == old(toClient) && stopRequested == old(stopRequested)
    {
      connection := Some(ownAddress);
      toChat := toChat + [UserJoined(Clone())];
    }

    /** `stopping`: sends one `UserLeft` with the actor's own id and agrees to stop. */
    method Stopping() returns (r: Running)
      modifies this
      ensures r == Stop
      ensures toChat == old(toChat) + [UserLeft(id)]
      ensures connection == old(connection)
      ensures toClient == old(toClient) && stopRequested == old(stopRequested)
    {
      toChat := toChat + [UserLeft(Clone().Id())];
      r := Stop;
    }

    /** `Handler<ChatMessage>`: writes the pushed text to the client unchanged. */
    method HandleChatMessage(msg: ChatMessage)
      modifies this
      ensures toClient == old(toClient) + [TextFrame(msg.text)]
      ensures connection == old(connection)
      ensures toChat == old(toChat) && stopRequested == old(stopRequested)
    {
      toClient := toClient + [TextFrame(msg.text)];
    }

    /**
     * `StreamHandler::handle`: a text frame becomes one `MessageSent` by this
     * user; a close frame is answered with a close frame and stops the actor,
     * sending no event itself; every other item changes nothing.
     */
    method HandleStream(m: Inbound)
      modifies this
      ensures toChat == old(toChat) + InboundEvents(id, m)
      ensures IsClose(m) ==> toClient == old(toClient) + [CloseFrame(m.message.reason)] && stopRequested
      ensures !IsClose(m) ==> toClient == old(toClient) && stopRequested == old(stopRequested)
      ensures connection == old(connection)
    {
      match m {
        case Received(Text(text)) =>
          toChat := toChat + [MessageSent(id, text)];
        case Received(Close(reason)) =>
          toClient := toClient + [CloseFrame(reason)];
          stopRequested := true;
        case _ =>
      }
    }
  }

  /**
   * A session's own address as the chat sees it: before `started` a push to
   * the session's clone goes nowhere; after it, the push goes to the
   * session's own address, and handing that message to the session writes
   * the text to its client unchanged.
   */
  method SendReachesClient(x: string, a: Address, m: string)
    returns (before: seq<Delivery>, after: seq<Delivery>, u: UserActor)
    ensures before == []
    ensures after == [Delivery(a, ChatMessage(m))]
    ensures u.id == UuidFrom(x) && u.connection == Some(a)
    ensures u.toChat == [UserJoined(User(u.id, Some(a)))]
    ensures u.toClient == [TextFrame(m)]
  {
    u := new UserActor.WithChat(x);
    before := u.Clone().Send(m);
    u.Started(a);
    after := u.Clone().Send(m);
    u.HandleChatMessage(after[0].message);
  }
}

/**
 * The two request handlers of `src/main.rs` that carry chat logic:
 * `send_message`, which turns a posted body into one chat event if the
 * request has an `id` cookie, and `stream_chat`, which makes a session and
 * puts its id in an `id` cookie on the upgrade response.
 */
module Server {
  import opened Users
  import opened Events
  import opened Sessions

  datatype Cookie = Cookie(name: string, value: string, path: Option<string>, httpOnly: bool)

  /** What `send_message` reads of a request: the value of its `id` cookie, if it has one. */
  datatype Request = Request(idCookie: Option<string>)

  const UnauthorizedMessage: string := "not authorized to send messages"

  datatype HttpError = Unauthorized(message: string) | HandshakeFailed(reason: string)

  /**
   * The outcome of `send_message`: rejected with an error, or answered with
   * `200 OK` after sending `event` to the chat.
   */
  datatype Ingress = Rejected(error: HttpError) | Accepted(event: ChatEvent)

  /** The chat events an outcome sends. */
  function Emitted(r: Ingress): seq<ChatEvent> {
    match r
    case Rejected(_) => []
    case Accepted(event) => [event]
  }

  /**
   * `send_message`: without an `id` cookie the request is unauthorized and
   * nothing is sent; with one, exactly one `MessageSent` goes to the chat,
   * authored by the cookie's value, with the body as content.
   */
  function SendMessage(req: Request, message: string): (r: Ingress)
    ensures r.Rejected? <==> req.idCookie.None?
    ensures r.Rejected? ==> r.error == Unauthorized(UnauthorizedMessage) && Emitted(r) == []
    ensures r.Accepted? ==>
      Emitted(r) == [r.event] && r.event.MessageSent? &&
      r.event.authorId.Display() == req.idCookie.value && r.event.content == message
  {
    match req.idCookie
    case None => Rejected(Unauthorized(UnauthorizedMessage))
    case Some(value) => Accepted(MessageSent(UuidFrom(value), message))
  }

  /** The cookie `stream_chat` builds: named `id`, holding the id, path `/`, http-only. */
  function SessionCookie(id: Uuid): (c: Cookie)
    ensures c.name == "id" && c.value == id.Display()
    ensures c.path == Some("/") && c.httpOnly
  {
    Cookie("id", id.Display(), Some("/"), true)
  }

  /**
   * A client that posts with the cookie its session was given is credited
   * with that session's own id: cookie and ingress are inverse.
   */
  lemma CookieIdentifiesSession(id: Uuid, message: string)
    ensures SendMessage(Request(Some(SessionCookie(id).value)), message) == Accepted(MessageSent(id, message))
  {
    UuidRoundTrip(id, message);
  }

  class HttpResponse {
    var cookies: seq<Cookie>

    constructor ()
      ensures cookies == []
    {
      cookies := [];
    }

    method AddCookie(c: Cookie)
      modifies this
      ensures cookies == old(cookies) + [c]
    {
      cookies := cookies + [c];
    }
  }

  /** The result of the websocket handshake `ws::start` performs. */
  datatype Upgrade = Upgraded(response: HttpResponse) | Refused(error: HttpError)

  /**
   * `stream_chat`: makes a fresh session with no connection; if the handshake
   * succeeded, adds the session cookie to its response, and otherwise passes
   * the failure on untouched.
   */
  method StreamChat(freshId: string, upgrade: Upgrade) returns (user: UserActor, out: Upgrade)
    modifies if upgrade.Upgraded? then {upgrade.response} else {}
    ensures fresh(user)
    ensures user.id.Display() == freshId && user.connection == None
    ensures user.toChat == [] && user.toClient == [] && !user.stopRequested
    ensures out == upgrade
    ensures upgrade.Upgraded? ==>
      upgrade.response.cookies == old(upgrade.response.cookies) + [SessionCookie(user.id)]
  {
    user := new UserActor.WithChat(freshId);
    var id := user.id;
    match upgrade {
      case Upgraded(res) =>
        res.AddCookie(SessionCookie(id));
      case Refused(_) =>
    }
    out := upgrade;
  }
}

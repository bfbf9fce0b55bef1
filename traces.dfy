/**
 * End-to-end runs: sessions and the ingress endpoint feed the chat, one
 * event at a time, in the order the chat's mailbox hands them over.
 */
module Traces {
  import opened Users
  import opened Events
  import opened ChatService
  import opened Sessions
  import opened Server

  /** A post without an `id` cookie leaves the chat exactly as it was. */
  lemma UnauthorizedPostChangesNothing(s: ChatState, message: string)
    ensures SendMessage(Request(None), message).Rejected?
    ensures Run(s, Emitted(SendMessage(Request(None), message))) == s
  {
  }

  /**
   * A post with cookie value `v` leaves the users as they are and reaches
   * every connected user with the line `v: message`.
   */
  lemma AuthorizedPostReachesEveryone(s: ChatState, v: string, message: string, i: nat)
    requires i < |s.users| && s.users[i].connection.Some?
    ensures Run(s, Emitted(SendMessage(Request(Some(v)), message))).users == s.users
    ensures Delivery(s.users[i].connection.value, ChatMessage(v + ": " + message))
      in Run(s, Emitted(SendMessage(Request(Some(v)), message))).sent
  {
    var e := MessageSent(UuidFrom(v), message);
    assert Emitted(SendMessage(Request(Some(v)), message)) == [e];
    assert Run(s, [e]) == Step(Run(s, []), e);
    StepMessage(s, UuidFrom(v), message, i);
    var t := Step(s, e);
    assert t.sent == t.sent[..|s.sent|] + t.sent[|s.sent|..];
  }

  /** A first joiner is the only user, and its own join line is all that is sent. */
  lemma FirstJoinReachesOnlyTheJoiner(x: Uuid, ax: Address)
    ensures Run(Initial, [UserJoined(User(x, Some(ax)))]).users == [User(x, Some(ax))]
    ensures Run(Initial, [UserJoined(User(x, Some(ax)))]).sent ==
      [Delivery(ax, ChatMessage("!! << " + x.Display() + " joined the chat >> !!"))]
  {
    assert Run(Initial, [UserJoined(User(x, Some(ax)))]) == Step(Initial, UserJoined(User(x, Some(ax))));
    StepJoined(Initial, User(x, Some(ax)));
  }

  /**
   * A session starts, its join goes to a fresh chat, and the chat's one
   * delivery is handed to the session: the joiner's client is shown its own
   * join line and nothing else.
   */
  method JoinerHearsOwnJoin(x: string, a: Address) returns (u: UserActor, c: Chat)
    ensures c.users == [User(UuidFrom(x), Some(a))]
    ensures c.sent == [Delivery(a, ChatMessage(JoinLine(UuidFrom(x))))]
    ensures u.toClient == [TextFrame(JoinLine(UuidFrom(x)))]
  {
    var joiner := User(UuidFrom(x), Some(a));
    var line := JoinLine(UuidFrom(x));
    c := new Chat();
    u := new UserActor.WithChat(x);
    u.Started(a);
    var e := u.toChat[0];
    assert e == UserJoined(joiner);
    c.Handle(e);
    assert [] + [joiner] == [joiner];
    BroadcastOfTwo(joiner, joiner, line);
    assert joiner.Send(line) == [Delivery(a, ChatMessage(line))];
    var d := c.sent[0];
    u.HandleChatMessage(d.message);
  }

  lemma RunSnoc(s: ChatState, es: seq<ChatEvent>, e: ChatEvent)
    ensures Run(s, es + [e]) == Step(Run(s, es), e)
  {
    assert (es + [e])[..|es|] == es;
  }

  lemma BroadcastOfTwo(a: User, b: User, line: string)
    ensures Broadcast([a], line) == a.Send(line)
    ensures Broadcast([a, b], line) == a.Send(line) + b.Send(line)
  {
    assert [a, b][..1] == [a];
    assert [a][..0] == [];
  }

  lemma StepOnPair(s: ChatState, e: ChatEvent, a: User, b: User)
    requires s.users == [a, b] && a.connection.Some? && b.connection.Some? && !e.UserJoined?
    ensures Step(s, e) == ChatState([a, b], s.sent +
      [Delivery(a.connection.value, ChatMessage(Line(e))), Delivery(b.connection.value, ChatMessage(Line(e)))])
  {
    assert Joiners(e) == [];
    assert s.users + Joiners(e) == [a, b];
    BroadcastOfTwo(a, b, Line(e));
    assert a.Send(Line(e)) == [Delivery(a.connection.value, ChatMessage(Line(e)))];
    assert b.Send(Line(e)) == [Delivery(b.connection.value, ChatMessage(Line(e)))];
  }

  /**
   * One session's life as the runtime drives it: started, a ping, one text
   * frame, a protocol error, a close frame, then `stopping`. It sends exactly
   * one join, one message by itself and one leave, and answers the close;
   * the ping and the protocol error change nothing.
   */
  method SessionLifecycle(x: string, ax: Address, hello: string) returns (u: UserActor)
    ensures u.toChat ==
      [UserJoined(User(Uuid(x), Some(ax))), MessageSent(Uuid(x), hello), UserLeft(Uuid(x))]
    ensures u.toClient == [CloseFrame(None)] && u.stopRequested
  {
    u := new UserActor.WithChat(x);
    u.Started(ax);
    u.HandleStream(Received(Ping([])));
    u.HandleStream(Received(Text(hello)));
    u.HandleStream(Failed(ProtocolError("overflow")));
    u.HandleStream(Received(Close(None)));
    var r := u.Stopping();
  }

  /**
   * Two clients join, the first posts, then leaves, and its leave is
   * signalled twice. Both users stay in the vector; the one who left is
   * still sent its own leave lines, and the second leave repeats the first.
   */
  lemma JoinPostLeaveTrace(x: Uuid, y: Uuid, ax: Address, ay: Address, hello: string)
    ensures var X, Y := User(x, Some(ax)), User(y, Some(ay));
      var es := [UserJoined(X)] + [UserJoined(Y)] + [MessageSent(x, hello)] + [UserLeft(x)] + [UserLeft(x)];
      Run(Initial, es).users == [X, Y] &&
      Run(Initial, es).sent ==
        [Delivery(ax, ChatMessage(JoinLine(x)))] +
        [Delivery(ax, ChatMessage(JoinLine(y))), Delivery(ay, ChatMessage(JoinLine(y)))] +
        [Delivery(ax, ChatMessage(MessageLine(x, hello))), Delivery(ay, ChatMessage(MessageLine(x, hello)))] +
        [Delivery(ax, ChatMessage(LeftLine(x))), Delivery(ay, ChatMessage(LeftLine(x)))] +
        [Delivery(ax, ChatMessage(LeftLine(x))), Delivery(ay, ChatMessage(LeftLine(x)))]
  {
    var X, Y := User(x, Some(ax)), User(y, Some(ay));
    var e0, e1, e2, e3 := UserJoined(X), UserJoined(Y), MessageSent(x, hello), UserLeft(x);
    RunOfFive(Initial, e0, e1, e2, e3, e3);
    TwoJoins(X, Y);
    var s2 := Step(Step(Initial, e0), e1);
    StepOnPair(s2, e2, X, Y);
    StepOnPair(Step(s2, e2), e3, X, Y);
    StepOnPair(Step(Step(s2, e2), e3), e3, X, Y);
  }

  /** The join steps of `JoinPostLeaveTrace`, proved on their own. */
  lemma TwoJoins(a: User, b: User)
    requires a.connection.Some? && b.connection.Some?
    ensures Step(Step(Initial, UserJoined(a)), UserJoined(b)) == ChatState([a, b],
      [Delivery(a.connection.value, ChatMessage(JoinLine(a.id)))] +
      [Delivery(a.connection.value, ChatMessage(JoinLine(b.id))), Delivery(b.connection.value, ChatMessage(JoinLine(b.id)))])
  {
    FirstJoin(a);
    SecondJoin(a, b, [Delivery(a.connection.value, ChatMessage(JoinLine(a.id)))]);
  }

  lemma FirstJoin(a: User)
    requires a.connection.Some?
    ensures Step(Initial, UserJoined(a)) ==
      ChatState([a], [Delivery(a.connection.value, ChatMessage(JoinLine(a.id)))])
  {
    assert [] + [a] == [a];
    BroadcastOfTwo(a, a, JoinLine(a.id));
  }

  lemma SecondJoin(a: User, b: User, d: seq<Delivery>)
    requires a.connection.Some? && b.connection.Some?
    ensures Step(ChatState([a], d), UserJoined(b)) == ChatState([a, b], d +
      [Delivery(a.connection.value, ChatMessage(JoinLine(b.id))), Delivery(b.connection.value, ChatMessage(JoinLine(b.id)))])
  {
    assert [a] + [b] == [a, b];
    BroadcastOfTwo(a, b, JoinLine(b.id));
  }

  lemma RunOfFive(s: ChatState, e0: ChatEvent, e1: ChatEvent, e2: ChatEvent, e3: ChatEvent, e4: ChatEvent)
    ensures Run(s, [e0] + [e1] + [e2] + [e3] + [e4]) == Step(Step(Step(Step(Step(s, e0), e1), e2), e3), e4)
  {
    RunSnoc(s, [], e0);
    assert [] + [e0] == [e0];
    RunSnoc(s, [e0], e1);
    RunSnoc(s, [e0] + [e1], e2);
    RunSnoc(s, [e0] + [e1] + [e2], e3);
    RunSnoc(s, [e0] + [e1] + [e2] + [e3], e4);
  }
}

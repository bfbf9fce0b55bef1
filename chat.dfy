/**
 * The chat actor of `src/services/chat/mod.rs`: a vector of user clones, and
 * a handler that formats one line per event and pushes it to every user in
 * vector order. Deliveries are recorded, in the order the handler makes
 * them, in the log `sent`. The handler never removes a user and never
 * checks for duplicates.
 */
module ChatService {
  import opened Users
  import opened Events

  /** The deliveries `for user in self.users.iter() { user.send(&message) }` makes. */
  function Broadcast(users: seq<User>, line: string): seq<Delivery>
  {
    if users == [] then []
    else Broadcast(users[..|users| - 1], line) + users[|users| - 1].Send(line)
  }

  /** The texts delivered to the actor at `a`, in order. */
  function Inbox(ds: seq<Delivery>, a: Address): seq<string>
  {
    if ds == [] then []
    else Inbox(ds[..|ds| - 1], a) + (if ds[|ds| - 1].to == a then [ds[|ds| - 1].message.text] else [])
  }

  /** How many elements of `users` are connected to `a`. */
  function Multiplicity(users: seq<User>, a: Address): nat
  {
    if users == [] then 0
    else Multiplicity(users[..|users| - 1], a) + (if users[|users| - 1].connection == Some(a) then 1 else 0)
  }

  function Repeat(line: string, n: nat): seq<string>
  {
    if n == 0 then [] else Repeat(line, n - 1) + [line]
  }

  predicate AllConnected(users: seq<User>) {
    forall i :: 0 <= i < |users| ==> users[i].connection.Some?
  }

  lemma {:induction false} InboxAppend(x: seq<Delivery>, y: seq<Delivery>, a: Address)
    ensures Inbox(x + y, a) == Inbox(x, a) + Inbox(y, a)
    decreases |y|
  {
    if y != [] {
      var y' := y[..|y| - 1];
      assert (x + y)[..|x + y| - 1] == x + y';
      InboxAppend(x, y', a);
    } else {
      assert x + y == x;
    }
  }

  lemma InboxOfSend(u: User, line: string, a: Address)
    ensures Inbox(u.Send(line), a) == if u.connection == Some(a) then [line] else []
  {
    if u.connection.Some? {
      var out := u.Send(line);
      assert out == [Delivery(u.connection.value, ChatMessage(line))];
      assert out[..0] == [];
    }
  }

  /**
   * One broadcast gives the actor at `a` exactly one copy of the line per
   * element of `users` connected to `a`, and nothing else.
   */
  lemma {:induction false} BroadcastInbox(users: seq<User>, line: string, a: Address)
    ensures Inbox(Broadcast(users, line), a) == Repeat(line, Multiplicity(users, a))
    decreases |users|
  {
    if users != [] {
      var rest := users[..|users| - 1];
      var u := users[|users| - 1];
      BroadcastInbox(rest, line, a);
      InboxAppend(Broadcast(rest, line), u.Send(line), a);
      InboxOfSend(u, line, a);
    }
  }

  /**
   * When every user is connected, the broadcast is exactly one delivery of
   * the line per element of `users`, in vector order.
   */
  lemma {:induction false} BroadcastPerMember(users: seq<User>, line: string)
    requires AllConnected(users)
    ensures |Broadcast(users, line)| == |users|
    ensures forall i :: 0 <= i < |users| ==>
      Broadcast(users, line)[i] == Delivery(users[i].connection.value, ChatMessage(line))
    decreases |users|
  {
    if users != [] {
      var rest := users[..|users| - 1];
      assert AllConnected(rest) by {
        forall i | 0 <= i < |rest| ensures rest[i].connection.Some? {
          assert rest[i] == users[i];
        }
      }
      BroadcastPerMember(rest, line);
      forall i | 0 <= i < |rest|
        ensures Broadcast(users, line)[i] == Delivery(users[i].connection.value, ChatMessage(line))
      {
        assert rest[i] == users[i];
      }
    }
  }

  /** Every delivery carries the line, to the connection of some element of `users`. */
  lemma {:induction false} BroadcastOnlyMembers(users: seq<User>, line: string)
    ensures forall d :: d in Broadcast(users, line) ==>
      d.message.text == line && exists u :: u in users && u.connection == Some(d.to)
    decreases |users|
  {
    if users != [] {
      var rest := users[..|users| - 1];
      var u := users[|users| - 1];
      BroadcastOnlyMembers(rest, line);
      forall d | d in Broadcast(users, line)
        ensures d.message.text == line && exists v :: v in users && v.connection == Some(d.to)
      {
        if d in Broadcast(rest, line) {
          var v :| v in rest && v.connection == Some(d.to);
          assert v in users;
        } else {
          assert d in u.Send(line);
          assert u in users;
        }
      }
    }
  }

  /** Every element of `users` with a connection receives the line. */
  lemma {:induction false} BroadcastReaches(users: seq<User>, line: string, i: nat)
    requires i < |users| && users[i].connection.Some?
    ensures Delivery(users[i].connection.value, ChatMessage(line)) in Broadcast(users, line)
    decreases |users|
  {
    var rest := users[..|users| - 1];
    if i < |rest| {
      assert rest[i] == users[i];
      BroadcastReaches(rest, line, i);
    }
  }

  /** The chat's state: the user vector and the log of deliveries. */
  datatype ChatState = ChatState(users: seq<User>, sent: seq<Delivery>)

  /** What `Chat::new` makes: no users, nothing sent. */
  const Initial: ChatState := ChatState([], [])

  /** The users an event adds: the joiner for `UserJoined`, nobody otherwise. */
  function Joiners(e: ChatEvent): seq<User> {
    match e
    case UserJoined(user) => [user]
    case _ => []
  }

  /** The effect of one `handle(ChatEvent)`: push the joiner, then broadcast. */
  function Step(s: ChatState, e: ChatEvent): ChatState {
    var users := s.users + Joiners(e);
    ChatState(users, s.sent + Broadcast(users, Line(e)))
  }

  /** Events handled one after the other, first to last. */
  function Run(s: ChatState, es: seq<ChatEvent>): ChatState
    decreases |es|
  {
    if es == [] then s else Step(Run(s, es[..|es| - 1]), es[|es| - 1])
  }

  /** The users of the `UserJoined` events of `es`, in order. */
  function JoinedUsers(es: seq<ChatEvent>): seq<User>
    decreases |es|
  {
    if es == [] then [] else JoinedUsers(es[..|es| - 1]) + Joiners(es[|es| - 1])
  }

  /** The number of `UserJoined` events in `es`. */
  function CountJoined(es: seq<ChatEvent>): nat
    decreases |es|
  {
    if es == [] then 0
    else CountJoined(es[..|es| - 1]) + (if es[|es| - 1].UserJoined? then 1 else 0)
  }

  /** Every `UserJoined` event in `es` carries a connected user. */
  predicate JoinsConnected(es: seq<ChatEvent>) {
    forall i :: 0 <= i < |es| ==> es[i].UserJoined? ==> es[i].user.connection.Some?
  }

  /**
   * `UserJoined(u)` appends `u` after the earlier users, unchanged; the
   * joiner is pushed before the loop, so its own join line is the last
   * delivery.
   */
  lemma StepJoined(s: ChatState, u: User)
    ensures Step(s, UserJoined(u)).users == s.users + [u]
    ensures Step(s, UserJoined(u)).sent ==
      s.sent + Broadcast(s.users, JoinLine(u.id)) + u.Send(JoinLine(u.id))
  {
    assert (s.users + [u])[..|s.users|] == s.users;
  }

  /**
   * `UserLeft(id)` leaves the users as they are and sends the leave line to
   * each connected user, including any whose id is `id`.
   */
  lemma StepLeft(s: ChatState, id: Uuid, i: nat)
    requires i < |s.users| && s.users[i].connection.Some?
    ensures Step(s, UserLeft(id)).users == s.users
    ensures Step(s, UserLeft(id)).sent == s.sent + Broadcast(s.users, LeftLine(id))
    ensures Delivery(s.users[i].connection.value, ChatMessage(id.Display() + " left the chat"))
      in Step(s, UserLeft(id)).sent[|s.sent|..]
  {
    assert s.users + [] == s.users;
    BroadcastReaches(s.users, LeftLine(id), i);
    assert Step(s, UserLeft(id)).sent[|s.sent|..] == Broadcast(s.users, LeftLine(id));
  }

  /**
   * `MessageSent` leaves the users as they are and sends `author: content`
   * to each connected user, the author included.
   */
  lemma StepMessage(s: ChatState, author: Uuid, content: string, i: nat)
    requires i < |s.users| && s.users[i].connection.Some?
    ensures Step(s, MessageSent(author, content)).users == s.users
    ensures Delivery(s.users[i].connection.value, ChatMessage(author.Display() + ": " + content))
      in Step(s, MessageSent(author, content)).sent[|s.sent|..]
  {
    assert s.users + [] == s.users;
    var line := MessageLine(author, content);
    BroadcastReaches(s.users, line, i);
    assert Step(s, MessageSent(author, content)).sent[|s.sent|..] == Broadcast(s.users, line);
  }

  /**
   * Per recipient, one handled event adds exactly one copy of its line per
   * user connected there, and nothing else.
   */
  lemma StepInbox(s: ChatState, e: ChatEvent, a: Address)
    ensures Inbox(Step(s, e).sent, a) ==
      Inbox(s.sent, a) + Repeat(Line(e), Multiplicity(Step(s, e).users, a))
  {
    var users := s.users + Joiners(e);
    InboxAppend(s.sent, Broadcast(users, Line(e)), a);
    BroadcastInbox(users, Line(e), a);
  }

  /** After any events the users are the initial ones plus every joiner, in order. */
  lemma {:induction false} RunUsers(s: ChatState, es: seq<ChatEvent>)
    ensures Run(s, es).users == s.users + JoinedUsers(es)
    decreases |es|
  {
    if es == [] {
      assert s.users + [] == s.users;
    } else {
      var prefix, e := es[..|es| - 1], es[|es| - 1];
      RunUsers(s, prefix);
      assert Run(s, es).users == Run(s, prefix).users + Joiners(e);
      assert (s.users + JoinedUsers(prefix)) + Joiners(e) == s.users + (JoinedUsers(prefix) + Joiners(e));
    }
  }

  lemma {:induction false} JoinedUsersCount(es: seq<ChatEvent>)
    ensures |JoinedUsers(es)| == CountJoined(es)
    decreases |es|
  {
    if es != [] {
      JoinedUsersCount(es[..|es| - 1]);
    }
  }

  /** Starting from `Chat::new`, the number of users is the number of joins. */
  lemma MembersCountJoins(es: seq<ChatEvent>)
    ensures |Run(Initial, es).users| == CountJoined(es)
  {
    RunUsers(Initial, es);
    JoinedUsersCount(es);
  }

  /** Handling `es` then `fs` is handling `es + fs`. */
  lemma {:induction false} RunAppend(s: ChatState, es: seq<ChatEvent>, fs: seq<ChatEvent>)
    ensures Run(s, es + fs) == Run(Run(s, es), fs)
    decreases |fs|
  {
    if fs == [] {
      assert es + fs == es;
    } else {
      assert (es + fs)[..|es + fs| - 1] == es + fs[..|fs| - 1];
      RunAppend(s, es, fs[..|fs| - 1]);
    }
  }

  /**
   * Users and deliveries only grow, each old one a prefix of the new:
   * nobody is removed and nothing sent is taken back.
   */
  lemma {:induction false} RunGrows(s: ChatState, es: seq<ChatEvent>)
    ensures s.users <= Run(s, es).users
    ensures s.sent <= Run(s, es).sent
    decreases |es|
  {
    if es != [] {
      var t := Run(s, es[..|es| - 1]);
      RunGrows(s, es[..|es| - 1]);
      StepGrows(t, es[|es| - 1]);
    }
  }

  lemma StepGrows(t: ChatState, e: ChatEvent)
    ensures t.users <= Step(t, e).users && t.sent <= Step(t, e).sent
  {
    assert Step(t, e).users[..|t.users|] == t.users;
    assert Step(t, e).sent[..|t.sent|] == t.sent;
  }

  /** Once a prefix of events is handled, later events never shrink the user vector. */
  lemma MembersNeverDecrease(s: ChatState, es: seq<ChatEvent>, fs: seq<ChatEvent>)
    ensures |Run(s, es).users| <= |Run(s, es + fs).users|
    ensures Run(s, es).users <= Run(s, es + fs).users
  {
    RunAppend(s, es, fs);
    RunGrows(Run(s, es), fs);
  }

  /** If every joiner is connected, every user of the chat is. */
  lemma {:induction false} RunKeepsConnected(s: ChatState, es: seq<ChatEvent>)
    requires AllConnected(s.users) && JoinsConnected(es)
    ensures AllConnected(Run(s, es).users)
    decreases |es|
  {
    if es != [] {
      var es' := es[..|es| - 1];
      assert JoinsConnected(es') by {
        forall i | 0 <= i < |es'| ensures es'[i].UserJoined? ==> es'[i].user.connection.Some? {
          assert es'[i] == es[i];
        }
      }
      RunKeepsConnected(s, es');
      var e := es[|es| - 1];
      var t := Run(s, es');
      assert e.UserJoined? ==> e.user.connection.Some?;
      forall i | 0 <= i < |t.users + Joiners(e)|
        ensures (t.users + Joiners(e))[i].connection.Some?
      {
        if i < |t.users| {
          assert (t.users + Joiners(e))[i] == t.users[i];
        }
      }
    }
  }

  class Chat {
    var users: seq<User>
    var sent: seq<Delivery>

    function State(): ChatState
      reads this
    {
      ChatState(users, sent)
    }

    /** `Chat::new`: no users and nothing sent. */
    constructor ()
      ensures users == [] && sent == []
      ensures State() == Initial
    {
      users := [];
      sent := [];
    }

    /** `Handler<ChatEvent>::handle`. */
    method Handle(e: ChatEvent)
      modifies this
      ensures users == old(users) + Joiners(e)
      ensures sent == old(sent) + Broadcast(users, Line(e))
      ensures State() == Step(old(State()), e)
    {
      var message: string;
      match e {
        case UserJoined(user) =>
          message := JoinLine(user.Id());
          users := users + [user];
        case UserLeft(id) =>
          message := LeftLine(id);
        case MessageSent(authorId, content) =>
          message := MessageLine(authorId, content);
      }
      var i := 0;
      while i < |users|
        invariant 0 <= i <= |users|
        invariant message == Line(e)
        invariant users == old(users) + Joiners(e)
        invariant sent == old(sent) + Broadcast(users[..i], message)
      {
        assert users[..i + 1][..i] == users[..i];
        sent := sent + users[i].Send(message);
        i := i + 1;
      }
      assert users[..i] == users;
    }
  }
}

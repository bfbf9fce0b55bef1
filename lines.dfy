/**
 * A decoder for the three broadcast line formats. Clients tell the lines
 * apart by convention only; this module shows when that works: a line
 * whose identity contains no ':' decodes back to the event it came from,
 * and every line that decodes is re-rendered to itself.
 */
module Lines {
  import opened Users
  import opened Events

  /** What a client can recover from one broadcast line. */
  datatype Notice =
    | Joined(id: string)
    | Left(id: string)
    | Said(author: string, content: string)

  /** The notice an event's line is meant to convey. */
  function Summary(e: ChatEvent): Notice {
    match e
    case UserJoined(user) => Joined(user.id.Display())
    case UserLeft(id) => Left(id.Display())
    case MessageSent(authorId, content) => Said(authorId.Display(), content)
  }

  /** The line a notice is written as, through the formatter of `Events`. */
  function Render(n: Notice): string {
    match n
    case Joined(id) => JoinLine(Uuid(id))
    case Left(id) => LeftLine(Uuid(id))
    case Said(author, content) => MessageLine(Uuid(author), content)
  }

  /** The identity an event's line starts from. */
  function Subject(e: ChatEvent): Uuid {
    match e
    case UserJoined(user) => user.id
    case UserLeft(id) => id
    case MessageSent(authorId, _) => authorId
  }

  predicate ColonFree(s: string) {
    forall i :: 0 <= i < |s| ==> s[i] != ':'
  }

  /** The position of the first ':' in `s`, if any. */
  function FirstColon(s: string): (k: Option<nat>)
    ensures k.Some? ==> k.value < |s| && s[k.value] == ':' && ColonFree(s[..k.value])
    ensures k.None? ==> ColonFree(s)
  {
    if s == [] then None
    else if s[0] == ':' then Some(0)
    else
      match FirstColon(s[1..])
      case None => None
      case Some(j) =>
        assert s[..j + 1] == [s[0]] + s[1..][..j];
        Some(j + 1)
  }

  lemma FirstColonAt(s: string, k: nat)
    requires k < |s| && s[k] == ':' && ColonFree(s[..k])
    ensures FirstColon(s) == Some(k)
  {
  }

  lemma ColonFreeConcat(a: string, b: string)
    requires ColonFree(a) && ColonFree(b)
    ensures ColonFree(a + b)
  {
    forall i | 0 <= i < |a + b| ensures (a + b)[i] != ':' {
      if i >= |a| {
        assert (a + b)[i] == b[i - |a|];
      }
    }
  }

  function HasSuffix(s: string, suffix: string): bool {
    |suffix| <= |s| && s[|s| - |suffix|..] == suffix
  }

  /**
   * Reads a broadcast line: the first ':' followed by ' ' splits a message;
   * a colon-free line is a leave notice by its suffix, or a join notice by
   * its prefix and suffix; anything else is not a broadcast line.
   */
  function ParseLine(s: string): Option<Notice> {
    match FirstColon(s)
    case Some(k) =>
      if k + 1 < |s| && s[k + 1] == ' ' then Some(Said(s[..k], s[k + 2..])) else None
    case None =>
      if HasSuffix(s, LeftSuffix) then
        Some(Left(s[..|s| - |LeftSuffix|]))
      else if |JoinPrefix| + |JoinSuffix| <= |s| && s[..|JoinPrefix|] == JoinPrefix && HasSuffix(s, JoinSuffix) then
        Some(Joined(s[|JoinPrefix|..|s| - |JoinSuffix|]))
      else
        None
  }

  /** Every line that decodes is exactly the rendering of what it decodes to. */
  lemma ParseLineSound(s: string)
    requires ParseLine(s).Some?
    ensures Render(ParseLine(s).value) == s
  {
    match FirstColon(s)
    case Some(k) =>
      assert s == s[..k] + Separator + s[k + 2..];
    case None =>
      if HasSuffix(s, LeftSuffix) {
        assert s == s[..|s| - |LeftSuffix|] + LeftSuffix;
      } else {
        var n := |s| - |JoinSuffix|;
        assert s == JoinPrefix + s[|JoinPrefix|..n] + JoinSuffix by {
          assert s == s[..|JoinPrefix|] + s[|JoinPrefix|..n] + s[n..];
        }
      }
  }

  /**
   * The line of an event whose identity has no ':' decodes to that event's
   * notice: the formatter loses nothing. Ids made by `User::with_chat` are
   * such identities (lemma `HyphenatedUuidColonFree`).
   */
  lemma ParseFormatted(e: ChatEvent)
    requires ColonFree(Subject(e).Display())
    ensures ParseLine(Line(e)) == Some(Summary(e))
  {
    var s := Line(e);
    match e
    case MessageSent(authorId, content) =>
      var a := authorId.Display();
      assert s == a + Separator + content;
      assert s[..|a|] == a;
      FirstColonAt(s, |a|);
      assert s[|a| + 2..] == content;
    case UserLeft(id) =>
      var x := id.Display();
      assert s == x + LeftSuffix;
      ColonFreeConcat(x, LeftSuffix);
      assert FirstColon(s) == None;
      assert s[..|s| - |LeftSuffix|] == x;
    case UserJoined(user) =>
      var x := user.id.Display();
      assert s == JoinPrefix + x + JoinSuffix;
      ColonFreeConcat(JoinPrefix, x);
      ColonFreeConcat(JoinPrefix + x, JoinSuffix);
      assert FirstColon(s) == None;
      assert s[|s| - 1] == '!' != LeftSuffix[|LeftSuffix| - 1];
      assert !HasSuffix(s, LeftSuffix);
      assert s[..|JoinPrefix|] == JoinPrefix;
      assert s[|s| - |JoinSuffix|..] == JoinSuffix;
      assert s[|JoinPrefix|..|s| - |JoinSuffix|] == x;
  }

  /** Two events with colon-free identities and the same line carry the same notice. */
  lemma LinesDistinguishEvents(e1: ChatEvent, e2: ChatEvent)
    requires ColonFree(Subject(e1).Display()) && ColonFree(Subject(e2).Display())
    requires Line(e1) == Line(e2)
    ensures Summary(e1) == Summary(e2)
  {
    ParseFormatted(e1);
    ParseFormatted(e2);
  }

  /** A hyphenated UUID, the form `User::with_chat` gives ids, has no ':'. */
  lemma HyphenatedUuidColonFree(s: string)
    requires IsHyphenatedUuid(s)
    ensures ColonFree(s)
  {
    forall i | 0 <= i < |s| ensures s[i] != ':' {
      if i == 8 || i == 13 || i == 18 || i == 23 {
        assert s[i] == '-';
      } else {
        assert IsHexDigit(s[i]);
      }
    }
  }

  /**
   * The message format cannot be read back when the author contains ": ".
   * The author of an ingress post is the raw `id` cookie value, so a client
   * can make its line look like another author's.
   */
  lemma MessageLinesAmbiguous()
    ensures Line(MessageSent(Uuid("a: b"), "c")) == Line(MessageSent(Uuid("a"), "b: c"))
    ensures Summary(MessageSent(Uuid("a: b"), "c")) != Summary(MessageSent(Uuid("a"), "b: c"))
  {
    assert Line(MessageSent(Uuid("a: b"), "c")) == "a: b: c";
    assert Line(MessageSent(Uuid("a"), "b: c")) == "a: b: c";
  }
}

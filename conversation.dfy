/**
  The conversation history: an ordered list of role-tagged messages, oldest
  first, and the rule that trims it before a chat turn.
 */
module Conversation {
  import opened Py

  /** Maximum number of messages kept when the history is trimmed. */
  const MAX_HISTORY: nat := 10

  datatype Role = User | Model

  /** One `{"text": ...}` fragment; the text is whatever JSON value it holds. */
  datatype Part = Part(text: Json)

  /** `{"role": ..., "parts": [...]}` */
  datatype Message = Message(role: Role, parts: seq<Part>)

  function UserMessage(text: Json): Message {
    Message(User, [Part(text)])
  }

  function ModelMessage(text: Json): Message {
    Message(Model, [Part(text)])
  }

  /** Python's `s[-n:]` for a positive `n`: the last `n` items, or all of them. */
  function LastN<T>(s: seq<T>, n: nat): seq<T>
    requires n > 0
  {
    if |s| <= n then s else s[|s| - n..]
  }

  /** The trim at the start of a chat turn: at `2 * MAX_HISTORY` messages or
      more, keep only the most recent `MAX_HISTORY`, in their order. */
  function Trim(h: seq<Message>): (r: seq<Message>)
    ensures |h| >= 2 * MAX_HISTORY ==> |r| == MAX_HISTORY
    ensures |h| < 2 * MAX_HISTORY ==> r == h
    ensures |r| <= |h| && r == h[|h| - |r|..]
  {
    if |h| >= 2 * MAX_HISTORY then LastN(h, MAX_HISTORY) else h
  }

  /** Role of the message at position `i` in a well-formed history. */
  function ExpectedRole(i: nat): Role {
    if i % 2 == 0 then User else Model
  }

  /** Roles alternate user, model, user, ... starting with user. */
  ghost predicate Alternates(h: seq<Message>) {
    forall i :: 0 <= i < |h| ==> h[i].role == ExpectedRole(i)
  }

  /** The invariant of the history between events: whole turns only, at most
      `2 * MAX_HISTORY` messages, alternating roles, one part per message. */
  ghost predicate WellFormed(h: seq<Message>) {
    && |h| % 2 == 0
    && |h| <= 2 * MAX_HISTORY
    && Alternates(h)
    && forall i :: 0 <= i < |h| ==> |h[i].parts| == 1
  }

  /** Dropping an even number of leading messages keeps the alternation. */
  lemma {:induction false} DropEvenKeepsAlternation(h: seq<Message>, k: nat)
    requires Alternates(h) && k <= |h| && k % 2 == 0
    ensures Alternates(h[k..])
  {
    forall i | 0 <= i < |h| - k
      ensures h[k..][i].role == ExpectedRole(i)
    {
      assert h[k..][i] == h[k + i];
      assert (k + i) % 2 == i % 2;
    }
  }

  /** Trimming a well-formed history leaves a well-formed history with room
      for one more turn. */
  lemma {:induction false} TrimWellFormed(h: seq<Message>)
    requires WellFormed(h)
    ensures WellFormed(Trim(h)) && |Trim(h)| <= 2 * MAX_HISTORY - 2
  {
    var r := Trim(h);
    if |h| >= 2 * MAX_HISTORY {
      DropEvenKeepsAlternation(h, |h| - MAX_HISTORY);
      assert r == h[|h| - MAX_HISTORY..];
    }
  }

  /** A completed turn appended to a history with room for it keeps the invariant. */
  lemma {:induction false} AppendTurnWellFormed(h: seq<Message>, query: Json, reply: Json)
    requires WellFormed(h) && |h| <= 2 * MAX_HISTORY - 2
    ensures WellFormed(h + [UserMessage(query), ModelMessage(reply)])
  {
    var h' := h + [UserMessage(query), ModelMessage(reply)];
    forall i | 0 <= i < |h'|
      ensures h'[i].role == ExpectedRole(i) && |h'[i].parts| == 1
    {
      if i < |h| {
        assert h'[i] == h[i];
      } else if i == |h| {
        assert i % 2 == 0;
      } else {
        assert i == |h| + 1 && i % 2 == 1;
      }
    }
  }

  /** What a chat turn sends: the trimmed history and the new user message,
      so the remote call always sees an odd-length, alternating conversation
      of at most `2 * MAX_HISTORY - 1` messages that ends with the user. */
  lemma {:induction false} ChatContentsShape(h: seq<Message>, query: Json)
    requires WellFormed(h)
    ensures Alternates(Trim(h) + [UserMessage(query)])
    ensures |Trim(h) + [UserMessage(query)]| % 2 == 1
    ensures |Trim(h) + [UserMessage(query)]| <= 2 * MAX_HISTORY - 1
    ensures (Trim(h) + [UserMessage(query)])[|Trim(h)|] == UserMessage(query)
  {
    TrimWellFormed(h);
    AppendUserKeepsAlternation(Trim(h), query);
  }

  /** A user message after whole turns stands at an even position. */
  lemma {:induction false} AppendUserKeepsAlternation(t: seq<Message>, query: Json)
    requires Alternates(t) && |t| % 2 == 0 && |t| <= 2 * MAX_HISTORY - 2
    ensures Alternates(t + [UserMessage(query)])
    ensures |t + [UserMessage(query)]| % 2 == 1
    ensures |t + [UserMessage(query)]| <= 2 * MAX_HISTORY - 1
    ensures (t + [UserMessage(query)])[|t|] == UserMessage(query)
  {
    var s := t + [UserMessage(query)];
    forall i | 0 <= i < |s|
      ensures s[i].role == ExpectedRole(i)
    {
      if i < |t| {
        assert s[i] == t[i];
      } else {
        assert i == |t| && i % 2 == 0;
      }
    }
  }
}

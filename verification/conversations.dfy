/** src/nexabot/domain/conversations/entities.py: messages, and the aggregate that knows
    how much of its own history it holds. */
module Conversations {
  import opened Common
  import Text

  datatype MessageRole = System | User | Assistant | Tool

  datatype Message = Message(id: Id, conversation: Id, role: MessageRole, content: string, createdAt: Instant)

  datatype ConversationStatus = Active | Archived | Deleted

  const CONTENT_REQUIRED := Error("validation_error", "Message content is required.")
  const LIMIT_NOT_POSITIVE := Error("validation_error", "Recent message limit must be positive.")
  const HISTORY_NOT_LOADED :=
    Error("conversation_history_not_loaded", "Requested more history than was loaded for this conversation.")
  const NOT_ACTIVE := Error("conversation_not_active", "Conversation is not active.")
  const ALREADY_DELETED := Error("conversation_already_deleted", "Conversation is already deleted.")

  /** `Message.__post_init__` refuses blank content. */
  function NewMessage(id: Id, conversation: Id, role: MessageRole, content: string, now: Instant): Result<Message> {
    if Text.Blank(content) then Err(CONTENT_REQUIRED) else Ok(Message(id, conversation, role, content, now))
  }

  /** The value of a `Conversation`: what its fields say at one instant. */
  datatype Snapshot = Snapshot(
    id: Id,
    owner: Id,
    status: ConversationStatus,
    messages: seq<Message>,
    window: Option<nat>)
  {
    /** The loaded messages are the newest ones of the true history `full`; without a
        window they are all of it, with a window they are exactly that many. */
    ghost predicate Knows(full: seq<Message>) {
      match window
      case None => messages == full
      case Some(n) => n <= |full| && messages == Last(full, n)
    }

    function Append(m: Message): Snapshot {
      this.(messages := messages + [m],
            window := match window case None => None case Some(n) => Some(n + 1))
    }

    function Recent(limit: int): Result<seq<Message>> {
      if limit <= 0 then Err(LIMIT_NOT_POSITIVE)
      else if window.Some? && limit > window.value then Err(HISTORY_NOT_LOADED)
      else Ok(Last(messages, limit))
    }
  }

  /** Appending to a windowed aggregate is appending to the history it stands for. */
  lemma AppendKeepsKnowledge(c: Snapshot, full: seq<Message>, m: Message)
    requires c.Knows(full)
    ensures c.Append(m).Knows(full + [m])
  {
    if c.window.Some? {
      LastOfAppend(full, m, c.window.value);
    }
  }

  function AppendAll(c: Snapshot, ms: seq<Message>): Snapshot {
    if ms == [] then c else AppendAll(c, ms[..|ms| - 1]).Append(ms[|ms| - 1])
  }

  /** What a load with limit `limit` puts in memory when the stored history is `full`. */
  function Loaded(id: Id, owner: Id, status: ConversationStatus, full: seq<Message>, limit: nat): Snapshot {
    var page := Last(full, limit);
    Snapshot(id, owner, status, page, if |page| == limit then Some(limit) else None)
  }

  lemma {:induction false} AppendAllKeepsKnowledge(c: Snapshot, full: seq<Message>, ms: seq<Message>)
    requires c.Knows(full)
    ensures AppendAll(c, ms).Knows(full + ms)
    ensures AppendAll(c, ms).window.Some? <==> c.window.Some?
    ensures c.window.Some? ==> AppendAll(c, ms).window.value == c.window.value + |ms|
  {
    if ms == [] {
      assert full + ms == full;
    } else {
      var front, m := ms[..|ms| - 1], ms[|ms| - 1];
      AppendAllKeepsKnowledge(c, full, front);
      AppendKeepsKnowledge(AppendAll(c, front), full + front, m);
      assert full + front + [m] == full + ms;
    }
  }

  /** After any load and any appends, asking for the newest `n` messages answers with exactly
      the newest `n` of the true history, and is refused exactly when the page was full and
      `n` is more than the page and the appends together. */
  lemma WindowedAggregateRefinesHistory(
    id: Id, owner: Id, status: ConversationStatus, full: seq<Message>, limit: nat, appended: seq<Message>, n: nat)
    requires 0 < n
    ensures
      var c := AppendAll(Loaded(id, owner, status, full, limit), appended);
      && (c.Recent(n).Err? <==> limit <= |full| && n > limit + |appended|)
      && (c.Recent(n).Ok? ==> c.Recent(n).value == Last(full + appended, n))
  {
    var loaded := Loaded(id, owner, status, full, limit);
    AppendAllKeepsKnowledge(loaded, full, appended);
    var c := AppendAll(loaded, appended);
    if c.window.Some? && n <= c.window.value {
      LastOfLast(full + appended, c.window.value, n);
    }
  }

  /** The aggregate itself. */
  class Conversation {
    const id: Id
    const owner: Id
    var status: ConversationStatus
    var messages: seq<Message>
    var historyWindow: Option<nat>
    var updatedAt: Instant

    function Value(): Snapshot
      reads this
    {
      Snapshot(id, owner, status, messages, historyWindow)
    }

    constructor (c: Snapshot, now: Instant)
      ensures Value() == c && updatedAt == now
    {
      id, owner, status, messages, historyWindow := c.id, c.owner, c.status, c.messages, c.window;
      updatedAt := now;
    }

    method EnsureActive() returns (r: Result<()>)
      ensures r == if status.Active? then Ok(()) else Err(NOT_ACTIVE)
    {
      if status != Active {
        return Err(NOT_ACTIVE);
      }
      return Ok(());
    }

    /** A successful append extends whatever history the aggregate stood for by exactly the
        new message; a refused one changes nothing. */
    method AppendMessage(messageId: Id, role: MessageRole, content: string, now: Instant) returns (r: Result<Message>)
      modifies this
      ensures r.Ok? <==> old(status).Active? && !Text.Blank(content)
      ensures r.Ok? ==> r.value == Message(messageId, id, role, content, now)
      ensures r.Ok? ==> Value() == old(Value()).Append(r.value) && updatedAt == now
      ensures r.Ok? ==> forall full :: old(Value()).Knows(full) ==> Value().Knows(full + [r.value])
      ensures r.Err? ==> unchanged(this)
      ensures r.Err? ==> r.error == if old(status).Active? then CONTENT_REQUIRED else NOT_ACTIVE
    {
      var active := EnsureActive();
      if active.Err? {
        return Err(active.error);
      }
      var created := NewMessage(messageId, id, role, content, now);
      if created.Err? {
        return created;
      }
      ghost var before := Value();
      messages := messages + [created.value];
      if historyWindow.Some? {
        historyWindow := Some(historyWindow.value + 1);
      }
      updatedAt := now;
      forall full | before.Knows(full)
        ensures before.Append(created.value).Knows(full + [created.value])
      {
        AppendKeepsKnowledge(before, full, created.value);
      }
      return created;
    }

    /** The answer is never a silently truncated history. */
    method RecentMessages(limit: int) returns (r: Result<seq<Message>>)
      ensures r == Value().Recent(limit)
      ensures r.Ok? ==> forall full :: Value().Knows(full) ==> r.value == Last(full, limit)
    {
      if limit <= 0 {
        return Err(LIMIT_NOT_POSITIVE);
      }
      if historyWindow.Some? && limit > historyWindow.value {
        return Err(HISTORY_NOT_LOADED);
      }
      r := Ok(if limit < |messages| then messages[|messages| - limit..] else messages);
      forall full | Value().Knows(full)
        ensures r.value == Last(full, limit)
      {
        if historyWindow.Some? {
          LastOfLast(full, historyWindow.value, limit);
        }
      }
    }

    method Archive(now: Instant) returns (r: Result<()>)
      modifies this`status, this`updatedAt
      ensures r.Ok? <==> old(status).Active?
      ensures r.Ok? ==> status == Archived && updatedAt == now
      ensures r.Err? ==> unchanged(this)
    {
      r := EnsureActive();
      if r.Ok? {
        status, updatedAt := Archived, now;
      }
    }

    method Delete(now: Instant) returns (r: Result<()>)
      modifies this`status, this`updatedAt
      ensures r.Ok? <==> !old(status).Deleted?
      ensures r.Ok? ==> status == Deleted && updatedAt == now
      ensures r.Err? ==> unchanged(this)
    {
      if status == Deleted {
        return Err(ALREADY_DELETED);
      }
      status, updatedAt := Deleted, now;
      return Ok(());
    }
  }
}

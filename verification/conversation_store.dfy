/** src/nexabot/infrastructure/database/repositories/conversations.py: conversations loaded with
    a bounded page of their newest messages, and messages appended to them. */
module ConversationStore {
  import opened Common
  import opened Conversations
  import opened Tables
  import MessageOrder

  const WINDOW_NOT_POSITIVE := Error("message_window_invalid", "Message window must be positive.")
  const WINDOW_TOO_LARGE := Error("message_window_too_large", "Message window exceeds the maximum page size.")
  const MAX_MESSAGE_WINDOW := 500

  /** `validate_message_window`: the repository refuses windows that are not a bounded page size. */
  function ValidateMessageWindow(limit: int): (r: Result<nat>)
    ensures r.Ok? ==> r.value == limit && 0 < limit <= MAX_MESSAGE_WINDOW
  {
    if limit <= 0 then Err(WINDOW_NOT_POSITIVE)
    else if limit > MAX_MESSAGE_WINDOW then Err(WINDOW_TOO_LARGE)
    else Ok(limit)
  }

  function LoadConversation(t: Tables, id: Id, window: nat): Option<Snapshot> {
    if id !in t.conversations then None
    else
      var page := MessageOrder.LoadMessages(t.messages, id, window);
      Some(Snapshot(id, t.conversations[id].owner, t.conversations[id].status, page,
                    if |page| == window then Some(window) else None))
  }

  /** The repository's `get`: a missing row is reported before the window is looked at. */
  function GetConversation(t: Tables, id: Id, window: int): Result<Option<Snapshot>> {
    if id !in t.conversations then Ok(None)
    else match ValidateMessageWindow(window)
         case Err(e) => Err(e)
         case Ok(limit) => Ok(LoadConversation(t, id, limit))
  }

  /** INSERT into `messages`: a taken id is refused. */
  function InsertMessage(t: Tables, m: Message): Result<Tables> {
    if m.id in set row | row in t.messages :: row.id then Err(DATABASE_CONFLICT)
    else Ok(t.(messages := t.messages + [m]))
  }

  /** What a load puts in memory is the newest page of the stored history, and the loaded
      aggregate knows that history. */
  lemma LoadedKnows(t: Tables, conversation: Id, window: nat)
    requires MessageOrder.UniqueIds(t.messages) && conversation in t.conversations
    ensures
      var loaded := LoadConversation(t, conversation, window).value;
      var history := MessageOrder.History(t.messages, conversation);
      && loaded == Loaded(conversation, t.conversations[conversation].owner, t.conversations[conversation].status,
                          history, window)
      && loaded.Knows(history)
  {
    MessageOrder.LoadIsNewestPage(t.messages, conversation, window);
  }

  /** The repository, bound to one session. */
  class ConversationRepository {
    const session: Session

    constructor (session: Session)
      ensures this.session == session
    {
      this.session := session;
    }

    /** The newest `limit` messages, oldest first. */
    method LoadMessages(conversation: Id, limit: nat) returns (messages: seq<Message>)
      ensures messages == MessageOrder.LoadMessages(session.tables.messages, conversation, limit)
      ensures MessageOrder.UniqueIds(session.tables.messages) ==>
                messages == Last(MessageOrder.History(session.tables.messages, conversation), limit)
    {
      var selected := MessageOrder.OrderBy(true, MessageOrder.Of(session.tables.messages, conversation));
      var rows := if limit < |selected| then selected[..limit] else selected;
      messages := [];
      var n := |rows|;
      while n > 0
        invariant 0 <= n <= |rows|
        invariant |messages| == |rows| - n
        invariant forall i :: 0 <= i < |messages| ==> messages[i] == rows[|rows| - 1 - i]
      {
        n := n - 1;
        messages := messages + [rows[n]];
      }
      assert messages == MessageOrder.LoadMessages(session.tables.messages, conversation, limit);
      if MessageOrder.UniqueIds(session.tables.messages) {
        MessageOrder.LoadIsNewestPage(session.tables.messages, conversation, limit);
      }
    }

    method Get(id: Id, messageLimit: int) returns (r: Result<Conversation?>)
      ensures r.Err? <==> GetConversation(session.tables, id, messageLimit).Err?
      ensures r.Err? ==> r.error == GetConversation(session.tables, id, messageLimit).error
      ensures r == Ok(null) <==> GetConversation(session.tables, id, messageLimit) == Ok(None)
      ensures r.Ok? && r.value != null ==>
                fresh(r.value) && GetConversation(session.tables, id, messageLimit) == Ok(Some(r.value.Value()))
    {
      if id !in session.tables.conversations {
        return Ok(null);
      }
      var row := session.tables.conversations[id];
      var limit := ValidateMessageWindow(messageLimit);
      if limit.Err? {
        return Err(limit.error);
      }
      var messages := LoadMessages(id, limit.value);
      var historyWindow := if |messages| == limit.value then Some(limit.value) else None;
      var loaded := new Conversation(Snapshot(id, row.owner, row.status, messages, historyWindow), row.updatedAt);
      return Ok(loaded);
    }

    method AppendMessage(m: Message) returns (r: Result<()>)
      modifies session
      ensures r.Ok? <==> InsertMessage(old(session.tables), m).Ok?
      ensures r.Ok? ==> session.tables == InsertMessage(old(session.tables), m).value
      ensures r.Err? ==> session.tables == old(session.tables) && r.error == DATABASE_CONFLICT
    {
      if m.id in set row | row in session.tables.messages :: row.id {
        return Err(DATABASE_CONFLICT);
      }
      session.tables := session.tables.(messages := session.tables.messages + [m]);
      return Ok(());
    }
  }
}

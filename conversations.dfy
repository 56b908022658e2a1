/** The staff inbox (backend/app/routers/conversations.py): listing the
    workspace's conversations, reading one conversation's messages, and replying,
    which pauses the conversation's automation. */
module Conversations {
  import opened Common
  import opened Models
  import opened Database
  import opened AutomationHandlers
  import opened Events

  const CONVERSATION_NOT_FOUND := "Conversation not found"

  /** list_conversations: exactly the conversations of the caller's workspace. */
  function ListConversations(conversations: seq<Conversation>, caller: User): (r: seq<Conversation>)
    ensures forall c | c in r :: c in conversations && c.workspaceId == caller.workspaceId
    ensures forall c | c in conversations && c.workspaceId == caller.workspaceId :: c in r
  {
    Filter(conversations, (c: Conversation) => c.workspaceId == caller.workspaceId)
  }

  /** The caller can see conversation `id`. */
  ghost predicate Visible(db: Db, id: int, caller: User) {
    exists c :: c in db.conversations && c.id == id && c.workspaceId == caller.workspaceId
  }

  /** get_messages: the messages of a conversation of the caller's workspace;
      any other conversation id is not found. */
  function GetMessages(db: Db, id: int, caller: User): (r: Response<seq<Message>>)
    ensures r.Ok? || r == NotFound(CONVERSATION_NOT_FOUND)
    ensures r.NotFound? <==> !Visible(db, id, caller)
    ensures r.Ok? ==> forall m | m in r.value :: m in db.messages && m.conversationId == id
    ensures r.Ok? ==> forall m | m in db.messages && m.conversationId == id :: m in r.value
  {
    match ConversationIndex(db.conversations, id, caller.workspaceId)
    case None => NotFound(CONVERSATION_NOT_FOUND)
    case Some(i) =>
      var conversation := db.conversations[i];
      Ok(Filter(db.messages, (m: Message) => m.conversationId == conversation.id))
  }

  /** The staff reply form (`MessageCreate`); `None` is a form that leaves the
      type out, which the schema fills with e-mail. */
  datatype Reply = Reply(content: string, msgType: Option<MessageType>)

  function StaffReplyEvent(conversationId: nat): Event {
    Event(STAFF_REPLY, map["conversation_id" := conversationId])
  }

  /** The conversation table with the row `ConversationIndex` finds paused. */
  function Paused(conversations: seq<Conversation>, id: int, ws: int): (r: seq<Conversation>)
    requires ConversationIndex(conversations, id, ws).Some?
    ensures |r| == |conversations|
    ensures ConversationIndex(r, id, ws) == ConversationIndex(conversations, id, ws)
    ensures var i := ConversationIndex(conversations, id, ws).value;
            && r[i] == conversations[i].(status := PAUSED_CONVERSATION)
            && forall j | 0 <= j < |r| && j != i :: r[j] == conversations[j]
  {
    var i := ConversationIndex(conversations, id, ws).value;
    var r := conversations[i := conversations[i].(status := PAUSED_CONVERSATION)];
    FirstIndexPointwise(conversations, r, (c: Conversation) => c.id == id && c.workspaceId == ws);
    r
  }

  /** Pausing keeps the database's invariant: only a status changes. */
  lemma PausedKeepsValid(db: Db, id: int, ws: int)
    requires db.Valid()
    requires ConversationIndex(db.conversations, id, ws).Some?
    ensures db.(conversations := Paused(db.conversations, id, ws)).Valid()
  {
    var r := Paused(db.conversations, id, ws);
    var db' := db.(conversations := r);
    assert forall j | 0 <= j < |r| :: r[j].id == db.conversations[j].id && r[j].contactId == db.conversations[j].contactId;
    forall c | c in r ensures c.id < db.nextId && HasContact(db.contacts, c.contactId) {
      var j :| 0 <= j < |r| && r[j] == c;
      assert db.conversations[j] in db.conversations;
    }
    forall m | m in db.messages ensures HasConversation(r, m.conversationId) {
      var c :| c in db.conversations && c.id == m.conversationId;
      var j :| 0 <= j < |db.conversations| && db.conversations[j] == c;
      assert r[j] in r;
    }
  }

  /** reply_to_conversation: a conversation outside the caller's workspace is
      not found and nothing is written. Otherwise one outbound message with the
      reply's type and content is appended, the conversation ends up "paused",
      and STAFF_REPLY is queued exactly when it was not paused before. */
  function ReplySpec(db: Db, id: int, caller: User, reply: Reply): (r: Transition<Message>)
    ensures r.response.Ok? || r.response == NotFound(CONVERSATION_NOT_FOUND)
    ensures r.response.NotFound? <==> !Visible(db, id, caller)
    ensures r.response.NotFound? ==> r.db == db && r.queued == []
    ensures r.response.Ok? ==>
      var i := ConversationIndex(db.conversations, id, caller.workspaceId).value;
      && OnlyConversationsAndMessages(db, r.db)
      && OneMessageAppended(db, r.db)
      && LastMessage(r.db) == r.response.value
      && r.response.value == Message(r.response.value.id, id, Outbound, reply.msgType.GetOr(Email), reply.content)
      && r.db.conversations == db.conversations[i := db.conversations[i].(status := PAUSED_CONVERSATION)]
      && (db.conversations[i].status == PAUSED_CONVERSATION ==> r.queued == [])
      && (db.conversations[i].status != PAUSED_CONVERSATION ==> r.queued == [StaffReplyEvent(db.conversations[i].id)])
    ensures db.Valid() ==> r.db.Valid()
  {
    match ConversationIndex(db.conversations, id, caller.workspaceId)
    case None => Transition(db, NotFound(CONVERSATION_NOT_FOUND), [])
    case Some(i) =>
      var conversation := db.conversations[i];
      var m := Message(db.nextId, conversation.id, Outbound, reply.msgType.GetOr(Email), reply.content);
      var db1 := db.(messages := db.messages + [m], nextId := db.nextId + 1);
      assert db.Valid() ==> db1.Valid() by {
        if db.Valid() {
          assert conversation in db.conversations;
          NewMessageKeepsValid(db, m);
        }
      }
      if conversation.status != PAUSED_CONVERSATION then
        assert db.Valid() ==> db1.(conversations := Paused(db1.conversations, id, caller.workspaceId)).Valid() by {
          if db.Valid() { PausedKeepsValid(db1, id, caller.workspaceId); }
        }
        Transition(db1.(conversations := Paused(db1.conversations, id, caller.workspaceId)), Ok(m), [StaffReplyEvent(conversation.id)])
      else
        assert db.conversations[i := conversation.(status := PAUSED_CONVERSATION)] == db.conversations;
        Transition(db1, Ok(m), [])
  }

  /** A second reply to the same conversation queues no second STAFF_REPLY and
      leaves it paused. */
  lemma {:induction false} ReplyTwice(db: Db, id: int, caller: User, first: Reply, second: Reply)
    requires ReplySpec(db, id, caller, first).response.Ok?
    ensures var once := ReplySpec(db, id, caller, first);
            var twice := ReplySpec(once.db, id, caller, second);
            && twice.response.Ok?
            && twice.queued == []
            && twice.db.conversations == once.db.conversations
  {
    var once := ReplySpec(db, id, caller, first);
    var i := ConversationIndex(db.conversations, id, caller.workspaceId).value;
    FirstIndexPointwise(db.conversations, once.db.conversations, (c: Conversation) => c.id == id && c.workspaceId == caller.workspaceId);
    assert ConversationIndex(once.db.conversations, id, caller.workspaceId) == Some(i);
    assert once.db.conversations[i].status == PAUSED_CONVERSATION;
    assert once.db.conversations[i] in once.db.conversations;
  }

  /** reply_to_conversation on a store; the STAFF_REPLY emit is deferred to `tasks`. */
  method ReplyToConversation(store: Store, tasks: BackgroundTasks, id: int, caller: User, reply: Reply) returns (r: Response<Message>)
    modifies store, tasks
    ensures var t := ReplySpec(old(store.Snapshot()), id, caller, reply);
            store.Snapshot() == t.db && r == t.response && tasks.pending == old(tasks.pending) + t.queued
    ensures old(store.Valid()) ==> store.Valid()
  {
    var index := ConversationIndex(store.conversations, id, caller.workspaceId);
    if index.None? {
      return NotFound(CONVERSATION_NOT_FOUND);
    }
    var conversation := store.conversations[index.value];
    var messageId := store.NewId();
    var m := Message(messageId, conversation.id, Outbound, reply.msgType.GetOr(Email), reply.content);
    store.messages := store.messages + [m];
    if conversation.status != PAUSED_CONVERSATION {
      store.conversations := Paused(store.conversations, id, caller.workspaceId);
      tasks.AddTask(StaffReplyEvent(conversation.id));
    }
    r := Ok(m);
  }
}

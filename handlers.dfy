/** The three reactions of the automation engine (backend/app/services/automation.py).
    Each re-loads what its payload names and appends rows. `WelcomeEffect`,
    `BookingCreatedEffect` and `InventoryLowEffect` say what a call does to the
    database; the methods of the same names as the source's functions do it on a
    `Store`, step by step. */
module AutomationHandlers {
  import opened Common
  import opened Models
  import opened Database

  /** The callables the event bus can hold. `Failing` stands for any handler
      that raises. */
  datatype Handler = WelcomeHandler | BookingHandler | InventoryLowHandler | Failing

  /** A handler call either returns or raises; the bus catches what is raised. */
  datatype HandlerResult = Handled | Raised(error: string)

  datatype Step = Step(db: Db, result: HandlerResult)

  function WelcomeText(name: string): string {
    "Hi " + name + ", thanks for reaching out! How can we help you today?"
  }

  function ConfirmationText(serviceName: string, startTime: int): string {
    "Booking confirmed for " + serviceName + " at " + IntToString(startTime) + "."
  }

  function LowStockText(item: InventoryItem): string {
    "Inventory item '" + item.name + "' is low (" + IntToString(item.quantity) + " remaining)."
  }

  /** `db'` differs from `db` at most in the listed tables. */
  predicate OnlyConversationsAndMessages(db: Db, db': Db) {
    db' == db.(conversations := db'.conversations, messages := db'.messages, nextId := db'.nextId)
  }

  predicate OnlyMessages(db: Db, db': Db) {
    db' == db.(messages := db'.messages, nextId := db'.nextId)
  }

  predicate OnlyAlerts(db: Db, db': Db) {
    db' == db.(alerts := db'.alerts, nextId := db'.nextId)
  }

  /** `db'.messages` is `db.messages` with one message appended. */
  predicate OneMessageAppended(db: Db, db': Db) {
    |db'.messages| == |db.messages| + 1 && db'.messages[..|db.messages|] == db.messages
  }

  function LastMessage(db: Db): Message
    requires |db.messages| > 0
  {
    db.messages[|db.messages| - 1]
  }

  /** The contact a NEW_CONTACT payload names, if it exists. */
  function WelcomeContact(db: Db, p: Payload): Option<Contact> {
    var id := Get(p, "contact_id");
    if id.None? then None else ContactById(db.contacts, id.value)
  }

  lemma NewConversationKeepsValid(db: Db, c: Conversation)
    requires db.Valid()
    requires c.id == db.nextId
    requires HasContact(db.contacts, c.contactId)
    requires ConversationOfContact(db.conversations, c.contactId).None?
    ensures db.(conversations := db.conversations + [c], nextId := db.nextId + 1).Valid()
  {
    var db' := db.(conversations := db.conversations + [c], nextId := db.nextId + 1);
    forall i, j | 0 <= i < j < |db'.conversations|
      ensures db'.conversations[i].contactId != db'.conversations[j].contactId
    {
      if j == |db.conversations| {
        assert db'.conversations[i] in db.conversations;
      }
    }
    forall m | m in db'.messages ensures HasConversation(db'.conversations, m.conversationId) {
      var w :| w in db.conversations && w.id == m.conversationId;
      assert w in db'.conversations;
    }
  }

  lemma NewMessageKeepsValid(db: Db, m: Message)
    requires db.Valid()
    requires m.id == db.nextId
    requires HasConversation(db.conversations, m.conversationId)
    ensures db.(messages := db.messages + [m], nextId := db.nextId + 1).Valid()
  {
  }

  /** Files an inbound or outbound message in the contact's conversation, opening
      an "active" conversation in workspace `ws` when the contact has none. */
  function PostToConversation(db: Db, ws: int, contactId: nat, direction: MessageDirection, msgType: MessageType, content: string): (r: Db)
    ensures OnlyConversationsAndMessages(db, r)
    ensures ConversationOfContact(db.conversations, contactId).Some? ==> r.conversations == db.conversations
    ensures ConversationOfContact(db.conversations, contactId).None? ==>
              r.conversations == db.conversations + [Conversation(db.nextId, ws, contactId, ACTIVE_CONVERSATION)]
    ensures OneMessageAppended(db, r)
    ensures ConversationOfContact(r.conversations, contactId).Some?
    ensures LastMessage(r) == Message(LastMessage(r).id, ConversationOfContact(r.conversations, contactId).value.id, direction, msgType, content)
    ensures db.Valid() && HasContact(db.contacts, contactId) ==> r.Valid()
  {
    var existing := ConversationOfContact(db.conversations, contactId);
    var db1 :=
      if existing.Some? then db
      else db.(conversations := db.conversations + [Conversation(db.nextId, ws, contactId, ACTIVE_CONVERSATION)],
               nextId := db.nextId + 1);
    var conversation := if existing.Some? then existing.value else db1.conversations[|db1.conversations| - 1];
    assert ConversationOfContact(db1.conversations, contactId) == Some(conversation) by {
      if existing.None? {
        assert db1.conversations == db.conversations + [conversation];
        assert forall x :: x in db1.conversations ==> x in db.conversations || x == conversation;
      }
    }
    var m := Message(db1.nextId, conversation.id, direction, msgType, content);
    assert db.Valid() && HasContact(db.contacts, contactId) ==> db1.(messages := db1.messages + [m], nextId := db1.nextId + 1).Valid() by {
      if db.Valid() && HasContact(db.contacts, contactId) {
        if existing.None? {
          NewConversationKeepsValid(db, conversation);
        }
        assert conversation in db1.conversations;
        NewMessageKeepsValid(db1, m);
      }
    }
    db1.(messages := db1.messages + [m], nextId := db1.nextId + 1)
  }

  const WORKSPACE_ID_NOT_NULL := "integrity error: conversations.workspace_id is null"

  /** The welcome goes by SMS to a contact with a phone, by e-mail otherwise. */
  function WelcomeType(c: Contact): MessageType {
    if Truthy(c.phone) then Sms else Email
  }

  /** send_welcome_message: load the contact; open an "active" conversation if it
      has none; append an outbound welcome message to its conversation. Opening
      the conversation without a `workspace_id` in the payload violates the
      column's NOT NULL constraint: the call raises and nothing is written. */
  function WelcomeEffect(db: Db, p: Payload): (r: Step)
    ensures OnlyConversationsAndMessages(db, r.db)
    ensures r.result.Raised? ==> r.db == db
    ensures WelcomeContact(db, p).None? ==> r == Step(db, Handled)
    ensures WelcomeContact(db, p).Some? ==>
      var c := WelcomeContact(db, p).value;
      && (r.result.Raised? <==>
            ConversationOfContact(db.conversations, c.id).None? && Get(p, "workspace_id").None?)
      && (ConversationOfContact(db.conversations, c.id).Some? ==>
            r.db.conversations == db.conversations)
      && (r.result.Handled? && ConversationOfContact(db.conversations, c.id).None? ==>
            r.db.conversations == db.conversations +
              [Conversation(db.nextId, Get(p, "workspace_id").value, c.id, ACTIVE_CONVERSATION)])
      && (r.result.Handled? ==>
            && OneMessageAppended(db, r.db)
            && ConversationOfContact(r.db.conversations, c.id).Some?
            && LastMessage(r.db).conversationId == ConversationOfContact(r.db.conversations, c.id).value.id
            && LastMessage(r.db).direction == Outbound
            && LastMessage(r.db).msgType == WelcomeType(c)
            && LastMessage(r.db).content == WelcomeText(c.name))
    ensures db.Valid() ==> r.db.Valid()
  {
    match WelcomeContact(db, p)
    case None => Step(db, Handled)
    case Some(contact) =>
      var existing := ConversationOfContact(db.conversations, contact.id);
      var ws := Get(p, "workspace_id");
      if existing.None? && ws.None? then
        Step(db, Raised(WORKSPACE_ID_NOT_NULL))
      else
        // The workspace id only matters when a conversation is opened.
        var convWs := if existing.Some? then existing.value.workspaceId else ws.value;
        assert HasContact(db.contacts, contact.id);
        Step(PostToConversation(db, convWs, contact.id, Outbound, WelcomeType(contact), WelcomeText(contact.name)), Handled)
  }

  /** The booking a BOOKING_CREATED payload names, if it exists. */
  function PayloadBooking(db: Db, p: Payload): Option<Booking> {
    var id := Get(p, "booking_id");
    if id.None? then None else BookingById(db.bookings, id.value)
  }

  /** handle_booking_created: load the booking; if its contact has a conversation,
      append an outbound system confirmation to it. No conversation is opened.
      A booking whose service row is missing makes `booking.service.name` raise. */
  function BookingCreatedEffect(db: Db, p: Payload): (r: Step)
    ensures OnlyMessages(db, r.db)
    ensures r.db.conversations == db.conversations
    ensures r.result.Raised? ==> r.db == db
    ensures PayloadBooking(db, p).None? ==> r == Step(db, Handled)
    ensures PayloadBooking(db, p).Some? ==>
      var b := PayloadBooking(db, p).value;
      && (r.result.Raised? <==> ServiceById(db.services, b.serviceId).None?)
      && (ConversationOfContact(db.conversations, b.contactId).None? ==> r.db == db)
      && (r.result.Handled? && ConversationOfContact(db.conversations, b.contactId).Some? ==>
            && OneMessageAppended(db, r.db)
            && LastMessage(r.db).conversationId == ConversationOfContact(db.conversations, b.contactId).value.id
            && LastMessage(r.db).direction == Outbound
            && LastMessage(r.db).msgType == System
            && LastMessage(r.db).content == ConfirmationText(ServiceById(db.services, b.serviceId).value.name, b.startTime))
    ensures db.Valid() ==> r.db.Valid()
  {
    match PayloadBooking(db, p)
    case None => Step(db, Handled)
    case Some(booking) =>
      match ServiceById(db.services, booking.serviceId)
      case None => Step(db, Raised("'NoneType' object has no attribute 'name'"))
      case Some(service) =>
        match ConversationOfContact(db.conversations, booking.contactId)
        case None => Step(db, Handled)
        case Some(conversation) =>
          var m := Message(db.nextId, conversation.id, Outbound, System, ConfirmationText(service.name, booking.startTime));
          assert db.Valid() ==> db.(messages := db.messages + [m], nextId := db.nextId + 1).Valid() by {
            if db.Valid() { NewMessageKeepsValid(db, m); }
          }
          Step(db.(messages := db.messages + [m], nextId := db.nextId + 1), Handled)
  }

  /** The inventory item an INVENTORY_LOW payload names, if it exists. */
  function PayloadItem(db: Db, p: Payload): Option<InventoryItem> {
    var id := Get(p, "item_id");
    if id.None? then None else ItemById(db.items, id.value)
  }

  /** handle_inventory_low: load the item; append one unread "inventory_low" alert
      for the item's workspace. The item itself is not touched. */
  function InventoryLowEffect(db: Db, p: Payload): (r: Step)
    ensures OnlyAlerts(db, r.db)
    ensures r.db.items == db.items
    ensures r.result == Handled
    ensures PayloadItem(db, p).None? ==> r.db == db
    ensures PayloadItem(db, p).Some? ==>
      var item := PayloadItem(db, p).value;
      && |r.db.alerts| == |db.alerts| + 1
      && r.db.alerts[..|db.alerts|] == db.alerts
      && var a := r.db.alerts[|db.alerts|];
         a.workspaceId == item.workspaceId && a.alertType == "inventory_low" && !a.isRead
    ensures db.Valid() ==> r.db.Valid()
  {
    match PayloadItem(db, p)
    case None => Step(db, Handled)
    case Some(item) =>
      var a := Alert(db.nextId, item.workspaceId, "inventory_low", LowStockText(item), false);
      Step(db.(alerts := db.alerts + [a], nextId := db.nextId + 1), Handled)
  }

  /** Calling handler `h` with payload `p`. */
  function Invoke(h: Handler, p: Payload, db: Db): Step {
    match h
    case WelcomeHandler => WelcomeEffect(db, p)
    case BookingHandler => BookingCreatedEffect(db, p)
    case InventoryLowHandler => InventoryLowEffect(db, p)
    case Failing => Step(db, Raised("handler raised an exception"))
  }

  /** Every handler keeps the database's integrity invariant, and one that raises
      writes nothing. */
  lemma InvokeKeepsValid(h: Handler, p: Payload, db: Db)
    requires db.Valid()
    ensures Invoke(h, p, db).db.Valid()
    ensures Invoke(h, p, db).result.Raised? ==> Invoke(h, p, db).db == db
  {
  }

  /** Re-emitting NEW_CONTACT for a contact that had no conversation: the second
      call opens no second conversation but appends a second welcome message. */
  lemma {:induction false} WelcomeTwice(db: Db, p: Payload)
    requires db.Valid()
    requires WelcomeContact(db, p).Some?
    requires ConversationOfContact(db.conversations, WelcomeContact(db, p).value.id).None?
    requires Get(p, "workspace_id").Some?
    ensures var once := WelcomeEffect(db, p);
            var twice := WelcomeEffect(once.db, p);
            && once.result == Handled && twice.result == Handled
            && once.db.conversations == db.conversations +
                 [Conversation(db.nextId, Get(p, "workspace_id").value, WelcomeContact(db, p).value.id, ACTIVE_CONVERSATION)]
            && twice.db.conversations == once.db.conversations
            && |twice.db.messages| == |db.messages| + 2
  {
    var c := WelcomeContact(db, p).value;
    var ws := Get(p, "workspace_id").value;
    var once := WelcomeEffect(db, p);
    assert once.result == Handled;
    var conv := Conversation(db.nextId, ws, c.id, ACTIVE_CONVERSATION);
    assert once.db.conversations == db.conversations + [conv];
    assert once.db.contacts == db.contacts;
    assert WelcomeContact(once.db, p) == Some(c);
    assert ConversationOfContact(once.db.conversations, c.id).Some?;
    var twice := WelcomeEffect(once.db, p);
    assert twice.result == Handled;
    assert twice.db.conversations == once.db.conversations;
  }

  /** send_welcome_message on a store. */
  method SendWelcomeMessage(store: Store, p: Payload) returns (result: HandlerResult)
    modifies store
    ensures Step(store.Snapshot(), result) == WelcomeEffect(old(store.Snapshot()), p)
    ensures old(store.Valid()) ==> store.Valid()
  {
    ghost var db := store.Snapshot();
    var contactId := Get(p, "contact_id");
    var workspaceId := Get(p, "workspace_id");
    if contactId.None? {
      return Handled;
    }
    var contact := ContactById(store.contacts, contactId.value);
    if contact.None? {
      return Handled;
    }
    assert WelcomeContact(db, p) == contact;
    var conversation := ConversationOfContact(store.conversations, contactId.value);
    if conversation.None? && workspaceId.None? {
      return Raised(WORKSPACE_ID_NOT_NULL);
    }
    var convWs := if conversation.Some? then conversation.value.workspaceId else workspaceId.value;
    PostToConversationOn(store, convWs, contact.value.id, Outbound, WelcomeType(contact.value), WelcomeText(contact.value.name));
    result := Handled;
  }

  /** Filing a message in the contact's conversation on a store. */
  method PostToConversationOn(store: Store, ws: int, contactId: nat, direction: MessageDirection, msgType: MessageType, content: string)
    modifies store
    ensures store.Snapshot() == PostToConversation(old(store.Snapshot()), ws, contactId, direction, msgType, content)
    ensures old(store.Valid()) && HasContact(old(store.contacts), contactId) ==> store.Valid()
  {
    var conversation := ConversationOfContact(store.conversations, contactId);
    var conversationId: nat;
    if conversation.None? {
      conversationId := store.NewId();
      store.conversations := store.conversations + [Conversation(conversationId, ws, contactId, ACTIVE_CONVERSATION)];
    } else {
      conversationId := conversation.value.id;
    }
    var messageId := store.NewId();
    store.messages := store.messages + [Message(messageId, conversationId, direction, msgType, content)];
  }

  /** handle_booking_created on a store. */
  method HandleBookingCreated(store: Store, p: Payload) returns (result: HandlerResult)
    modifies store
    ensures Step(store.Snapshot(), result) == BookingCreatedEffect(old(store.Snapshot()), p)
    ensures old(store.Valid()) ==> store.Valid()
  {
    var bookingId := Get(p, "booking_id");
    if bookingId.None? {
      return Handled;
    }
    var booking := BookingById(store.bookings, bookingId.value);
    if booking.None? {
      return Handled;
    }
    var service := ServiceById(store.services, booking.value.serviceId);
    if service.None? {
      return Raised("'NoneType' object has no attribute 'name'");
    }
    var content := ConfirmationText(service.value.name, booking.value.startTime);
    var conversation := ConversationOfContact(store.conversations, booking.value.contactId);
    if conversation.Some? {
      var messageId := store.NewId();
      store.messages := store.messages + [Message(messageId, conversation.value.id, Outbound, System, content)];
    }
    result := Handled;
  }

  /** handle_inventory_low on a store. */
  method HandleInventoryLow(store: Store, p: Payload) returns (result: HandlerResult)
    modifies store
    ensures Step(store.Snapshot(), result) == InventoryLowEffect(old(store.Snapshot()), p)
    ensures old(store.Valid()) ==> store.Valid()
  {
    var itemId := Get(p, "item_id");
    if itemId.None? {
      return Handled;
    }
    var item := ItemById(store.items, itemId.value);
    if item.None? {
      return Handled;
    }
    var alertId := store.NewId();
    store.alerts := store.alerts + [Alert(alertId, item.value.workspaceId, "inventory_low", LowStockText(item.value), false)];
    result := Handled;
  }

  /** `handler(payload)` for a registered handler. */
  method Call(h: Handler, store: Store, p: Payload) returns (result: HandlerResult)
    modifies store
    ensures Step(store.Snapshot(), result) == Invoke(h, p, old(store.Snapshot()))
    ensures old(store.Valid()) ==> store.Valid()
  {
    match h
    case WelcomeHandler => result := SendWelcomeMessage(store, p);
    case BookingHandler => result := HandleBookingCreated(store, p);
    case InventoryLowHandler => result := HandleInventoryLow(store, p);
    case Failing => result := Raised("handler raised an exception");
  }
}

/** The unauthenticated intake endpoints (backend/app/routers/public.py): the
    public contact form, which de-duplicates contacts and files the message in the
    contact's conversation, and public booking, which also scans the workspace's
    inventory for low stock. Both queue events for the bus. */
module Public {
  import opened Common
  import opened Models
  import opened Database
  import opened AutomationHandlers
  import opened Events

  /** The public contact form (`ContactFormSubmit`). */
  datatype ContactForm = ContactForm(name: string, email: Option<string>, phone: Option<string>, message: Option<string>)

  /** `ContactResponse` */
  datatype ContactReceipt = ContactReceipt(id: nat, message: string)

  const WORKSPACE_NOT_FOUND := "Workspace not found"
  const EMAIL_OR_PHONE_REQUIRED := "Email or Phone is required"
  const CONTACT_SUBMITTED := "Contact submitted successfully"

  /** The contact a submission matches: the first in the workspace with the
      form's e-mail when one is given, otherwise (or failing that) the first in
      the workspace with the form's phone when one is given. */
  function MatchContact(contacts: seq<Contact>, ws: int, form: ContactForm): (r: Option<Contact>)
    ensures r.Some? ==> r.value in contacts && r.value.workspaceId == ws
    ensures r.Some? ==> (Truthy(form.email) && r.value.email == form.email) || (Truthy(form.phone) && r.value.phone == form.phone)
    ensures Truthy(form.email) && (exists c :: c in contacts && c.workspaceId == ws && c.email == form.email) ==>
              r.Some? && r.value.email == form.email
    ensures r.None? <==>
      forall c | c in contacts && c.workspaceId == ws ::
        !(Truthy(form.email) && c.email == form.email) && !(Truthy(form.phone) && c.phone == form.phone)
  {
    var byEmail := if Truthy(form.email) then ContactByEmail(contacts, form.email, ws) else None;
    if byEmail.Some? then byEmail
    else if Truthy(form.phone) then ContactByPhone(contacts, form.phone, ws)
    else None
  }

  /** The NEW_CONTACT event queued for a created contact. */
  function NewContactEvent(contactId: nat, ws: int): Event {
    Event(NEW_CONTACT, map["contact_id" := contactId, "workspace_id" := ws])
  }

  /** The contact a valid submission is filed under, the database once it is
      stored, and the events it queues. */
  datatype Intake = Intake(db: Db, contact: Contact, queued: seq<Event>)

  /** Reuses the matched contact, or creates one with the form's fields in
      workspace `ws` and queues NEW_CONTACT for it. */
  function ResolveContact(db: Db, ws: int, form: ContactForm): (r: Intake)
    ensures MatchContact(db.contacts, ws, form).Some? ==>
              r == Intake(db, MatchContact(db.contacts, ws, form).value, [])
    ensures MatchContact(db.contacts, ws, form).None? ==>
              && r.contact == Contact(db.nextId, ws, form.name, form.email, form.phone)
              && r.db == db.(contacts := db.contacts + [r.contact], nextId := db.nextId + 1)
              && r.queued == [NewContactEvent(r.contact.id, ws)]
    ensures r.contact in r.db.contacts
    ensures db.Valid() ==> r.db.Valid()
  {
    match MatchContact(db.contacts, ws, form)
    case Some(c) => Intake(db, c, [])
    case None =>
      var c := Contact(db.nextId, ws, form.name, form.email, form.phone);
      var db1 := db.(contacts := db.contacts + [c], nextId := db.nextId + 1);
      assert db.Valid() ==> db1.Valid() by {
        if db.Valid() {
          forall v | v in db1.conversations ensures HasContact(db1.contacts, v.contactId) {
            var k :| k in db.contacts && k.id == v.contactId;
            assert k in db1.contacts;
          }
        }
      }
      Intake(db1, c, [NewContactEvent(c.id, ws)])
  }

  /** The message type of a submission: e-mail when the form has an e-mail. */
  function SubmissionType(form: ContactForm): MessageType {
    if Truthy(form.email) then Email else Sms
  }

  /** submit_contact_form: the workspace must exist and the form must carry an
      e-mail or a phone; the matched contact is reused, otherwise a contact is
      created and NEW_CONTACT is queued; a non-empty message is filed as an inbound
      message in the contact's conversation. Refusals write and queue nothing. */
  function SubmitContactFormSpec(db: Db, ws: int, form: ContactForm): (r: Transition<ContactReceipt>)
    ensures r.response.NotFound? <==> forall w | w in db.workspaces :: w.id != ws
    ensures r.response.BadRequest? <==>
      WorkspaceById(db.workspaces, ws).Some? && !Truthy(form.email) && !Truthy(form.phone)
    ensures r.response.Ok? || r.response == NotFound(WORKSPACE_NOT_FOUND) || r.response == BadRequest(EMAIL_OR_PHONE_REQUIRED)
    ensures !r.response.Ok? ==> r.db == db && r.queued == []
    ensures r.response.Ok? ==> r.response.value.message == CONTACT_SUBMITTED
    ensures r.response.Ok? ==>
      r.db == db.(contacts := r.db.contacts, conversations := r.db.conversations,
                  messages := r.db.messages, nextId := r.db.nextId)
    ensures r.response.Ok? && MatchContact(db.contacts, ws, form).Some? ==>
      r.response.value.id == MatchContact(db.contacts, ws, form).value.id && r.db.contacts == db.contacts && r.queued == []
    ensures r.response.Ok? && MatchContact(db.contacts, ws, form).None? ==>
      && r.db.contacts == db.contacts + [Contact(r.response.value.id, ws, form.name, form.email, form.phone)]
      && r.queued == [NewContactEvent(r.response.value.id, ws)]
      && (db.Valid() ==> forall c | c in db.contacts :: c.id != r.response.value.id)
    ensures |r.db.contacts| <= |db.contacts| + 1
    ensures r.response.Ok? && !Truthy(form.message) ==>
      r.db.conversations == db.conversations && r.db.messages == db.messages
    ensures r.response.Ok? && Truthy(form.message) ==>
      var id := r.response.value.id;
      && OneMessageAppended(db, r.db)
      && (ConversationOfContact(db.conversations, id).Some? ==> r.db.conversations == db.conversations)
      && (ConversationOfContact(db.conversations, id).None? ==>
            |r.db.conversations| == |db.conversations| + 1 &&
            r.db.conversations == db.conversations + [Conversation(r.db.conversations[|db.conversations|].id, ws, id, ACTIVE_CONVERSATION)])
      && LastMessage(r.db) == Message(LastMessage(r.db).id, ConversationOfContact(r.db.conversations, id).value.id,
                                      Inbound, SubmissionType(form), form.message.value)
    ensures db.Valid() ==> r.db.Valid()
  {
    if WorkspaceById(db.workspaces, ws).None? then
      Transition(db, NotFound(WORKSPACE_NOT_FOUND), [])
    else if !Truthy(form.email) && !Truthy(form.phone) then
      Transition(db, BadRequest(EMAIL_OR_PHONE_REQUIRED), [])
    else
      var intake := ResolveContact(db, ws, form);
      var contact := intake.contact;
      assert HasContact(intake.db.contacts, contact.id);
      var db2 :=
        if Truthy(form.message) then PostToConversation(intake.db, ws, contact.id, Inbound, SubmissionType(form), form.message.value)
        else intake.db;
      Transition(db2, Ok(ContactReceipt(contact.id, CONTACT_SUBMITTED)), intake.queued)
  }

  /** Contact matching and creation on a store. */
  method ResolveContactOn(store: Store, tasks: BackgroundTasks, ws: int, form: ContactForm) returns (c: Contact)
    modifies store, tasks
    ensures var i := ResolveContact(old(store.Snapshot()), ws, form);
            store.Snapshot() == i.db && c == i.contact && tasks.pending == old(tasks.pending) + i.queued
    ensures old(store.Valid()) ==> store.Valid()
  {
    var contact: Option<Contact> := None;
    if Truthy(form.email) {
      contact := ContactByEmail(store.contacts, form.email, ws);
    }
    if contact.None? && Truthy(form.phone) {
      contact := ContactByPhone(store.contacts, form.phone, ws);
    }
    assert contact == MatchContact(store.contacts, ws, form);
    if contact.None? {
      var id := store.NewId();
      c := Contact(id, ws, form.name, form.email, form.phone);
      store.contacts := store.contacts + [c];
      tasks.AddTask(NewContactEvent(c.id, ws));
    } else {
      c := contact.value;
    }
  }

  /** submit_contact_form on a store; the NEW_CONTACT emit is deferred to `tasks`. */
  method SubmitContactForm(store: Store, tasks: BackgroundTasks, ws: int, form: ContactForm) returns (r: Response<ContactReceipt>)
    modifies store, tasks
    ensures var t := SubmitContactFormSpec(old(store.Snapshot()), ws, form);
            store.Snapshot() == t.db && r == t.response && tasks.pending == old(tasks.pending) + t.queued
    ensures old(store.Valid()) ==> store.Valid()
  {
    var workspace := WorkspaceById(store.workspaces, ws);
    if workspace.None? {
      return NotFound(WORKSPACE_NOT_FOUND);
    }
    if !Truthy(form.email) && !Truthy(form.phone) {
      return BadRequest(EMAIL_OR_PHONE_REQUIRED);
    }
    var c := ResolveContactOn(store, tasks, ws, form);
    if Truthy(form.message) {
      PostToConversationOn(store, ws, c.id, Inbound, SubmissionType(form), form.message.value);
    }
    r := Ok(ContactReceipt(c.id, CONTACT_SUBMITTED));
  }

  /** The public booking form (`BookingCreate`); the start time is a minute count. */
  datatype BookingForm = BookingForm(serviceId: int, contactId: int, startTime: int)

  /** The booking endpoint's answer: id, status and a message. */
  datatype BookingReceipt = BookingReceipt(id: nat, status: BookingStatus, message: string)

  const SERVICE_NOT_FOUND := "Service not found"
  const CONTACT_NOT_FOUND := "Contact not found"
  const BOOKING_CREATED_MSG := "Booking created"

  /** An item at or below its threshold. */
  predicate IsLow(item: InventoryItem) {
    item.quantity <= item.lowStockThreshold
  }

  function LowStockEvent(item: InventoryItem): Event {
    Event(INVENTORY_LOW, map["item_id" := item.id])
  }

  /** The events the low-stock scan queues, in item order. */
  function LowStockEvents(items: seq<InventoryItem>): seq<Event>
    decreases |items|
  {
    if |items| == 0 then []
    else
      var n := |items| - 1;
      LowStockEvents(items[..n]) + if IsLow(items[n]) then [LowStockEvent(items[n])] else []
  }

  /** The scan queues exactly one INVENTORY_LOW per low item, in item order, and
      nothing for the others. */
  lemma {:induction false} LowStockEventsAreLowItems(items: seq<InventoryItem>)
    ensures |LowStockEvents(items)| == |Filter(items, IsLow)|
    ensures forall k | 0 <= k < |LowStockEvents(items)| ::
              LowStockEvents(items)[k] == LowStockEvent(Filter(items, IsLow)[k])
    decreases |items|
  {
    if |items| > 0 {
      var n := |items| - 1;
      assert items == items[..n] + [items[n]];
      FilterSnoc(items[..n], items[n], IsLow);
      LowStockEventsAreLowItems(items[..n]);
    }
  }

  function BookingCreatedEvent(bookingId: nat, ws: int): Event {
    Event(BOOKING_CREATED, map["booking_id" := bookingId, "workspace_id" := ws])
  }

  /** create_booking: the service must belong to the workspace and the contact
      must exist; the booking lasts the service's duration and is confirmed.
      BOOKING_CREATED is queued, then one INVENTORY_LOW per low item of the
      workspace. Only the booking table changes. */
  function CreateBookingSpec(db: Db, ws: int, form: BookingForm): (r: Transition<BookingReceipt>)
    ensures r.response.NotFound? <==>
      ServiceInWorkspace(db.services, form.serviceId, ws).None? || ContactById(db.contacts, form.contactId).None?
    ensures r.response.NotFound? ==>
      r.response.detail == if ServiceInWorkspace(db.services, form.serviceId, ws).None? then SERVICE_NOT_FOUND else CONTACT_NOT_FOUND
    ensures r.response.Ok? || r.response.NotFound?
    ensures r.response.NotFound? ==> r.db == db && r.queued == []
    ensures r.response.Ok? ==> |r.db.bookings| == |db.bookings| + 1
    ensures r.response.Ok? ==>
      var s := ServiceInWorkspace(db.services, form.serviceId, ws).value;
      var b := r.db.bookings[|db.bookings|];
      && r.db == db.(bookings := db.bookings + [b], nextId := r.db.nextId)
      && b == Booking(b.id, s.id, form.contactId, form.startTime, form.startTime + s.duration, Confirmed)
      && s.workspaceId == ws
      && r.response.value == BookingReceipt(b.id, Confirmed, BOOKING_CREATED_MSG)
      && r.queued == [BookingCreatedEvent(b.id, ws)] + LowStockEvents(ItemsOf(db.items, ws))
    ensures db.Valid() ==> r.db.Valid()
  {
    match ServiceInWorkspace(db.services, form.serviceId, ws)
    case None => Transition(db, NotFound(SERVICE_NOT_FOUND), [])
    case Some(s) =>
      match ContactById(db.contacts, form.contactId)
      case None => Transition(db, NotFound(CONTACT_NOT_FOUND), [])
      case Some(c) =>
        var b := Booking(db.nextId, s.id, c.id, form.startTime, form.startTime + s.duration, Confirmed);
        Transition(db.(bookings := db.bookings + [b], nextId := db.nextId + 1),
                   Ok(BookingReceipt(b.id, Confirmed, BOOKING_CREATED_MSG)),
                   [BookingCreatedEvent(b.id, ws)] + LowStockEvents(ItemsOf(db.items, ws)))
  }

  /** The low-stock scan: `for item in items: if item.quantity <= item.low_stock_threshold: add_task(...)`. */
  method QueueLowStock(tasks: BackgroundTasks, items: seq<InventoryItem>)
    modifies tasks
    ensures tasks.pending == old(tasks.pending) + LowStockEvents(items)
  {
    var i := 0;
    while i < |items|
      invariant 0 <= i <= |items|
      invariant tasks.pending == old(tasks.pending) + LowStockEvents(items[..i])
    {
      assert items[..i + 1][..i] == items[..i];
      assert LowStockEvents(items[..i + 1]) ==
        LowStockEvents(items[..i]) + if IsLow(items[i]) then [LowStockEvent(items[i])] else [];
      if items[i].quantity <= items[i].lowStockThreshold {
        tasks.AddTask(LowStockEvent(items[i]));
      }
      i := i + 1;
    }
    assert items[..|items|] == items;
  }

  /** create_booking on a store; the emits are deferred to `tasks`. */
  method CreateBooking(store: Store, tasks: BackgroundTasks, ws: int, form: BookingForm) returns (r: Response<BookingReceipt>)
    modifies store, tasks
    ensures var t := CreateBookingSpec(old(store.Snapshot()), ws, form);
            store.Snapshot() == t.db && r == t.response && tasks.pending == old(tasks.pending) + t.queued
    ensures old(store.Valid()) ==> store.Valid()
  {
    var service := ServiceInWorkspace(store.services, form.serviceId, ws);
    if service.None? {
      return NotFound(SERVICE_NOT_FOUND);
    }
    var contact := ContactById(store.contacts, form.contactId);
    if contact.None? {
      return NotFound(CONTACT_NOT_FOUND);
    }
    var endTime := form.startTime + service.value.duration;
    var id := store.NewId();
    store.bookings := store.bookings + [Booking(id, service.value.id, contact.value.id, form.startTime, endTime, Confirmed)];
    tasks.AddTask(BookingCreatedEvent(id, ws));
    QueueLowStock(tasks, ItemsOf(store.items, ws));
    r := Ok(BookingReceipt(id, Confirmed, BOOKING_CREATED_MSG));
  }
}

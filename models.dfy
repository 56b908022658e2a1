/** The persisted entities of the backend (one datatype per SQLAlchemy model),
    the in-memory database `Db` that holds one table per model, its integrity
    invariant, and the named queries the endpoints and handlers run. */
module Models {
  import opened Common

  datatype WorkspaceStatus = Draft | Active
  datatype UserRole = Owner | Staff
  datatype MessageDirection = Inbound | Outbound
  datatype MessageType = Email | Sms | System
  datatype BookingStatus = Confirmed | Completed | NoShow | Cancelled
  datatype FormStatus = Pending | Completed | Overdue
  datatype AutomationActionType = SendEmail | SendSms

  /** A JSON object column, keys mapped to their serialised values. */
  type JsonObject = map<string, string>

  /** The workspace's integration configuration: channel name to its configuration. */
  type Settings = map<string, JsonObject>

  /** Conversation statuses are plain strings in the schema; these two are the ones written. */
  const ACTIVE_CONVERSATION := "active"
  const PAUSED_CONVERSATION := "paused"

  datatype Workspace = Workspace(
    id: nat, name: string, address: Option<string>, timezone: string,
    contactEmail: string, status: WorkspaceStatus, settings: Option<Settings>)

  datatype User = User(id: nat, email: string, passwordHash: string, role: UserRole, workspaceId: int)

  datatype Contact = Contact(id: nat, workspaceId: int, name: string, email: Option<string>, phone: Option<string>)

  datatype Conversation = Conversation(id: nat, workspaceId: int, contactId: int, status: string)

  datatype Message = Message(
    id: nat, conversationId: int, direction: MessageDirection, msgType: MessageType, content: string)

  datatype Service = Service(id: nat, workspaceId: int, name: string, duration: int, location: Option<string>)

  datatype Availability = Availability(id: nat, serviceId: int, dayOfWeek: int, startTime: string, endTime: string)

  /** Times are minute counts. */
  datatype Booking = Booking(id: nat, serviceId: int, contactId: int, startTime: int, endTime: int, status: BookingStatus)

  datatype FormTemplate = FormTemplate(id: nat, workspaceId: int, name: string, schema: JsonObject)

  datatype FormSubmission = FormSubmission(id: nat, templateId: int, contactId: int, status: FormStatus)

  datatype InventoryItem = InventoryItem(id: nat, workspaceId: int, name: string, quantity: int, lowStockThreshold: int)

  datatype AutomationRule = AutomationRule(
    id: nat, workspaceId: int, formTemplateId: int, name: string,
    actionType: AutomationActionType, actionConfig: JsonObject, isActive: int)

  datatype Alert = Alert(id: nat, workspaceId: int, alertType: string, message: string, isRead: bool)

  datatype IntegrationLog = IntegrationLog(id: nat, workspaceId: int, integrationType: string, status: string, details: string)

  /** The database: one table per model, rows in insertion (primary-key) order,
      and the generator of fresh primary keys. */
  datatype Db = Db(
    workspaces: seq<Workspace>,
    users: seq<User>,
    contacts: seq<Contact>,
    conversations: seq<Conversation>,
    messages: seq<Message>,
    services: seq<Service>,
    availabilities: seq<Availability>,
    bookings: seq<Booking>,
    templates: seq<FormTemplate>,
    submissions: seq<FormSubmission>,
    items: seq<InventoryItem>,
    rules: seq<AutomationRule>,
    alerts: seq<Alert>,
    logs: seq<IntegrationLog>,
    nextId: nat)
  {
    /** Every primary key is below the key generator, so new keys are fresh. */
    ghost predicate KeysFresh() {
      && (forall w | w in workspaces :: w.id < nextId)
      && (forall u | u in users :: u.id < nextId)
      && (forall c | c in contacts :: c.id < nextId)
      && (forall c | c in conversations :: c.id < nextId)
      && (forall m | m in messages :: m.id < nextId)
      && (forall s | s in services :: s.id < nextId)
      && (forall a | a in availabilities :: a.id < nextId)
      && (forall b | b in bookings :: b.id < nextId)
      && (forall t | t in templates :: t.id < nextId)
      && (forall s | s in submissions :: s.id < nextId)
      && (forall i | i in items :: i.id < nextId)
      && (forall r | r in rules :: r.id < nextId)
      && (forall a | a in alerts :: a.id < nextId)
      && (forall l | l in logs :: l.id < nextId)
    }

    /** `users.email` is a unique column (backend/app/models/user.py:14). */
    ghost predicate EmailsUnique() {
      forall i, j | 0 <= i < j < |users| :: users[i].email != users[j].email
    }

    /** Both places that open a conversation first look for one of the contact. */
    ghost predicate OneConversationPerContact() {
      forall i, j | 0 <= i < j < |conversations| :: conversations[i].contactId != conversations[j].contactId
    }

    /** Foreign keys of the conversation tables point at existing rows. */
    ghost predicate ConversationRefsExist() {
      && (forall c | c in conversations :: HasContact(contacts, c.contactId))
      && (forall m | m in messages :: HasConversation(conversations, m.conversationId))
    }

    /** Every availability slot belongs to an existing service. */
    ghost predicate AvailabilityRefsExist() {
      forall a | a in availabilities :: ServiceExists(services, a.serviceId)
    }

    ghost predicate Valid() {
      KeysFresh() && EmailsUnique() && OneConversationPerContact() && ConversationRefsExist() && AvailabilityRefsExist()
    }
  }

  ghost predicate HasContact(contacts: seq<Contact>, id: int) {
    exists c :: c in contacts && c.id == id
  }

  ghost predicate HasConversation(conversations: seq<Conversation>, id: int) {
    exists c :: c in conversations && c.id == id
  }

  ghost predicate ServiceExists(services: seq<Service>, id: int) {
    exists s :: s in services && s.id == id
  }

  function EmptyDb(): Db {
    Db([], [], [], [], [], [], [], [], [], [], [], [], [], [], 1)
  }

  /** What an endpoint does to the database, what it answers and what it
      queues for the event bus. */
  datatype Transition<T> = Transition(db: Db, response: Response<T>, queued: seq<Event>)

  // Named queries. Each is one `db.query(...).filter(...).first()` of the source.

  function WorkspaceIndex(workspaces: seq<Workspace>, id: int): Option<nat> {
    FirstIndex(workspaces, (w: Workspace) => w.id == id)
  }

  function WorkspaceById(workspaces: seq<Workspace>, id: int): Option<Workspace> {
    match WorkspaceIndex(workspaces, id)
    case None => None
    case Some(i) => Some(workspaces[i])
  }

  /** The workspace table with the row `WorkspaceIndex` finds for `wsId`
      replaced by `w`, a new version of it with the same id. */
  function ReplaceWorkspace(workspaces: seq<Workspace>, wsId: int, w: Workspace): (r: seq<Workspace>)
    requires WorkspaceIndex(workspaces, wsId).Some?
    requires w.id == wsId
    ensures |r| == |workspaces|
    ensures WorkspaceIndex(r, wsId) == WorkspaceIndex(workspaces, wsId)
    ensures r[WorkspaceIndex(workspaces, wsId).value] == w
    ensures forall j | 0 <= j < |r| && j != WorkspaceIndex(workspaces, wsId).value :: r[j] == workspaces[j]
    ensures forall j | 0 <= j < |r| :: r[j].id == workspaces[j].id
  {
    var i := WorkspaceIndex(workspaces, wsId).value;
    var r := workspaces[i := w];
    FirstIndexPointwise(workspaces, r, (x: Workspace) => x.id == wsId);
    r
  }

  /** Replacing a workspace row keeps the database's invariant. */
  lemma ReplaceWorkspaceKeepsValid(db: Db, wsId: int, w: Workspace)
    requires db.Valid()
    requires WorkspaceIndex(db.workspaces, wsId).Some? && w.id == wsId
    ensures db.(workspaces := ReplaceWorkspace(db.workspaces, wsId, w)).Valid()
  {
    var r := ReplaceWorkspace(db.workspaces, wsId, w);
    forall x | x in r ensures x.id < db.nextId {
      var j :| 0 <= j < |r| && r[j] == x;
      assert db.workspaces[j] in db.workspaces;
    }
  }

  function UserByEmail(users: seq<User>, email: string): Option<User> {
    First(users, (u: User) => u.email == email)
  }

  function ContactById(contacts: seq<Contact>, id: int): Option<Contact> {
    First(contacts, (c: Contact) => c.id == id)
  }

  function ContactByEmail(contacts: seq<Contact>, email: Option<string>, ws: int): Option<Contact> {
    First(contacts, (c: Contact) => c.email == email && c.workspaceId == ws)
  }

  function ContactByPhone(contacts: seq<Contact>, phone: Option<string>, ws: int): Option<Contact> {
    First(contacts, (c: Contact) => c.phone == phone && c.workspaceId == ws)
  }

  function ConversationOfContact(conversations: seq<Conversation>, contactId: int): Option<Conversation> {
    First(conversations, (c: Conversation) => c.contactId == contactId)
  }

  function ConversationIndex(conversations: seq<Conversation>, id: int, ws: int): Option<nat> {
    FirstIndex(conversations, (c: Conversation) => c.id == id && c.workspaceId == ws)
  }

  function ServiceById(services: seq<Service>, id: int): Option<Service> {
    First(services, (s: Service) => s.id == id)
  }

  function ServiceInWorkspace(services: seq<Service>, id: int, ws: int): Option<Service> {
    First(services, (s: Service) => s.id == id && s.workspaceId == ws)
  }

  function BookingById(bookings: seq<Booking>, id: int): Option<Booking> {
    First(bookings, (b: Booking) => b.id == id)
  }

  function ItemById(items: seq<InventoryItem>, id: int): Option<InventoryItem> {
    First(items, (i: InventoryItem) => i.id == id)
  }

  function TemplateInWorkspace(templates: seq<FormTemplate>, id: int, ws: int): Option<FormTemplate> {
    First(templates, (t: FormTemplate) => t.id == id && t.workspaceId == ws)
  }

  function RuleIndex(rules: seq<AutomationRule>, id: int, ws: int): Option<nat> {
    FirstIndex(rules, (r: AutomationRule) => r.id == id && r.workspaceId == ws)
  }

  // Tenant-scoped `.all()` queries.

  function ItemsOf(items: seq<InventoryItem>, ws: int): seq<InventoryItem> {
    Filter(items, (i: InventoryItem) => i.workspaceId == ws)
  }
}

/** The session the endpoints and handlers work through: one mutable table per
    model and the primary-key generator. */
module Database {
  import opened Common
  import opened Models

  class Store {
    var workspaces: seq<Workspace>
    var users: seq<User>
    var contacts: seq<Contact>
    var conversations: seq<Conversation>
    var messages: seq<Message>
    var services: seq<Service>
    var availabilities: seq<Availability>
    var bookings: seq<Booking>
    var templates: seq<FormTemplate>
    var submissions: seq<FormSubmission>
    var items: seq<InventoryItem>
    var rules: seq<AutomationRule>
    var alerts: seq<Alert>
    var logs: seq<IntegrationLog>
    var nextId: nat

    /** The tables as one value. */
    function Snapshot(): Db
      reads this
    {
      Db(workspaces, users, contacts, conversations, messages, services, availabilities,
         bookings, templates, submissions, items, rules, alerts, logs, nextId)
    }

    ghost predicate Valid()
      reads this
    {
      Snapshot().Valid()
    }

    constructor ()
      ensures Snapshot() == EmptyDb() && Valid()
    {
      workspaces, users, contacts, conversations, messages := [], [], [], [], [];
      services, availabilities, bookings, templates, submissions := [], [], [], [], [];
      items, rules, alerts, logs := [], [], [], [];
      nextId := 1;
    }

    /** The key `db.add(...)` followed by `commit` gives a new row. */
    method NewId() returns (id: nat)
      modifies this`nextId
      ensures id == old(nextId) && nextId == id + 1
    {
      id := nextId;
      nextId := nextId + 1;
    }
  }
}

# OpsUnified backend core in Dafny

This project models the core of the OpsUnified FastAPI backend. It covers:

- the in-process event bus (`subscribe` / `emit`) and the queue of deferred emits that an endpoint fills through `background_tasks.add_task`;
- the three automation reactions that `start_automation` wires up: the welcome message, the booking confirmation and the low-stock alert;
- the workspace lifecycle: creation with its owner, and the draft → active gate;
- the public intake endpoints: the contact form and bookings;
- the staff inbox and its "staff reply pauses automation" rule;
- the tenant-scoped operations: integrations, staff, automation rules, services, inventory, form templates and the dashboard.

The database is a value `Models.Db`. Each table is a `seq` of rows in insertion order. The model reads SQL's `.first()` as "the first matching row in insertion order". This is an assumption: the queries have no ORDER BY, so the database may return another matching row. The assumption decides which contact a duplicate e-mail or phone matches, and the order in which low-stock events are queued. One key counter, `nextId`, hands out fresh primary keys. `Models.Db.Valid` is the integrity invariant that every operation keeps:

- keys are fresh;
- user e-mails are unique (`unique=True` at backend/app/models/user.py:14);
- a contact has at most one conversation;
- conversations point at contacts, messages at conversations, and availability slots at services.

`Database.Store` is the same database as a mutable object. `Database.Store.Valid` is `Models.Db.Valid` of its snapshot. Every endpoint and handler method keeps it, and so do `Events.EventBus.Emit`, `Events.RunBackgroundTasks` and `Public.ResolveContactOn`. The two helpers that write rows pointing at another row keep it when that row exists: `AutomationHandlers.PostToConversationOn` needs the contact, and `Services.AddSlots` needs the service.

Each state-changing endpoint and each handler appears twice (the list endpoints and the dashboard only read, and are pure functions alone):

- A pure function (`…Spec` for endpoints, `…Effect` for handlers). It returns the new database, the response and the events it queues. Its contract states what the source promises.
- A method over `Store`, plus `Events.BackgroundTasks` where the endpoint queues events. It does the same thing step by step, and its `ensures` say that it gives exactly what the function gives.

Responses are `Common.Response`: `Ok`, `NotFound` (404), `Forbidden` (403), `BadRequest` (400), or `ServerError` for an uncaught Python error such as an attribute read on `None`. Handler failures are the value `Raised`, which `emit` records and passes over.

The endpoint's caller (`current_user`) is a `User` value. The hash function for passwords is a parameter. Times are whole minutes.

## Model

| member | source | states |
|---|---|---|
| Events.EventKinds | backend/app/core/events.py:20-27 | the eight event kinds are pairwise distinct strings |
| Events.Subscribed | backend/app/core/events.py:5-8 | `h` goes to the end of `kind`'s list; a missing list is created; no other kind's list changes |
| Events.EventBus.Subscribe | backend/app/core/events.py:5-8 | the registry becomes `Subscribed(old registry, kind, h)` |
| Events.SubscribeTwice | backend/app/core/events.py:8 | no de-duplication: subscribing twice registers the handler twice |
| Events.RunHandlers | backend/app/core/events.py:12-17 | one result per registered handler |
| Events.HandlersRunInOrder | backend/app/core/events.py:13-15 | the i-th result is the i-th handler called once, with the emitted payload, on the state its predecessors left |
| Events.RunHandlersAppend | backend/app/core/events.py:13-15 | running `a + b` is running `a` and then `b` on what `a` left |
| Events.FailingHandlerIsolated | backend/app/core/events.py:14-17 | a raising handler is recorded as raised, writes nothing, and the later handlers still run with the same results |
| Events.RunHandlersKeepValid | backend/app/core/events.py:12-17 | dispatch keeps the database invariant |
| Events.EventBus.Emit | backend/app/core/events.py:10-17 | calls exactly the handlers registered for the kind, in order; an unsubscribed kind changes nothing; the registry is not written; a valid store stays valid |
| Events.BackgroundTasks.AddTask | backend/app/routers/public.py:51 | `add_task` appends the event to the pending queue |
| Events.RunBackgroundTasks | backend/app/core/events.py:10-17 | draining the queue emits its events in order and empties it; a valid store stays valid |
| Events.DrainedKeepsValid | backend/app/core/events.py:10-17 | draining any queue keeps the database invariant |
| AutomationHandlers.WelcomeEffect | backend/app/services/automation.py:19-50 | unknown contact: nothing written; a conversation is opened ("active", payload's workspace) only when the contact has none; with no conversation and no `workspace_id` the insert fails and nothing is written; otherwise exactly one outbound welcome message, SMS if the contact has a phone and e-mail otherwise |
| AutomationHandlers.PostToConversation | backend/app/services/automation.py:33-47 | reuses the contact's conversation or appends one "active" conversation; appends exactly one message with the given direction, type and content to it; keeps the invariant |
| AutomationHandlers.WelcomeTwice | backend/app/services/automation.py:33-47 | re-emitting NEW_CONTACT opens no second conversation but adds a second message |
| AutomationHandlers.BookingCreatedEffect | backend/app/services/automation.py:52-79 | unknown booking: nothing written; a booking whose service is missing raises on `booking.service.name`; with a conversation, exactly one outbound system message whose text is the confirmation built from the service name and the start time; without one, nothing; conversations are never created |
| AutomationHandlers.InventoryLowEffect | backend/app/services/automation.py:81-97 | unknown item: nothing written; otherwise exactly one unread "inventory_low" alert in the item's workspace; items untouched |
| AutomationHandlers.InvokeKeepsValid | backend/app/services/automation.py:19-97 | every handler keeps the invariant, and a raising one writes nothing |
| AutomationHandlers.SendWelcomeMessage | backend/app/services/automation.py:19-50 | the store changes exactly as `WelcomeEffect` says; a valid store stays valid |
| AutomationHandlers.PostToConversationOn | backend/app/services/automation.py:33-47 | the store changes exactly as `PostToConversation` says; a valid store stays valid when the contact exists |
| AutomationHandlers.HandleBookingCreated | backend/app/services/automation.py:52-79 | the store changes exactly as `BookingCreatedEffect` says; a valid store stays valid |
| AutomationHandlers.HandleInventoryLow | backend/app/services/automation.py:81-97 | the store changes exactly as `InventoryLowEffect` says; a valid store stays valid |
| AutomationHandlers.Call | backend/app/core/events.py:15 | calling a handler on the store agrees with `Invoke`; a valid store stays valid |
| AutomationEngine.AutomationRegistry | backend/app/services/automation.py:99-103 | appends the welcome, booking and low-stock handlers to their three kinds; every other kind is unchanged |
| AutomationEngine.StartedRegistry | backend/app/services/automation.py:99-103 | from an empty bus: exactly three kinds with one handler each; FORM_SUBMITTED and STAFF_REPLY have none |
| AutomationEngine.StartAutomation | backend/app/services/automation.py:99-103 | the bus's registry becomes `AutomationRegistry` of the old one |
| Workspaces.CreateWorkspaceSpec | backend/app/routers/workspaces.py:12-47 | BadRequest exactly when a user already has the owner e-mail, and then nothing is written; otherwise one draft workspace without settings, with timezone "UTC" when the form leaves it out, and exactly one owner user of it, password hashed; the invariant holds |
| Workspaces.CreateWorkspace | backend/app/routers/workspaces.py:12-47 | the store changes exactly as `CreateWorkspaceSpec` says; a valid store stays valid |
| Workspaces.ListWorkspaces | backend/app/routers/workspaces.py:49-56 | at most one workspace, the caller's own, and empty exactly when it does not exist |
| Workspaces.ChannelConfigured | backend/app/routers/workspaces.py:73-78 | the guard as written passes exactly the non-empty settings, including those naming neither "email" nor "sms" |
| Workspaces.ActivationGate | backend/app/routers/workspaces.py:64-89 | each outcome holds if and only if the earlier checks pass and its own check fails, in order: unknown workspace, not its owner, no channel, no service, no service with availability; Ok(Active) when all hold |
| Workspaces.ActivateSpec | backend/app/routers/workspaces.py:58-94 | the response is the gate's; a refusal writes nothing; success sets only that workspace's status to active; the invariant holds |
| Workspaces.GateFrame | backend/app/routers/workspaces.py:64-89 | the gate reads only the workspace's settings and the service and availability tables |
| Workspaces.ActivateTwice | backend/app/routers/workspaces.py:91-94 | with no prior-status check, activating an activated workspace succeeds again and changes nothing |
| Workspaces.ActivateWorkspace | backend/app/routers/workspaces.py:58-94 | the store changes exactly as `ActivateSpec` says; a valid store stays valid |
| Public.MatchContact | backend/app/routers/public.py:31-37 | the match is in the path workspace; an e-mail match wins; No match exactly when no contact of the workspace shares the given e-mail or the given phone |
| Public.ResolveContact | backend/app/routers/public.py:39-51 | a matched contact is reused with nothing queued; otherwise one contact with the form's fields is added and one NEW_CONTACT is queued for it |
| Public.SubmitContactFormSpec | backend/app/routers/public.py:11-76 | NotFound exactly for an unknown workspace; BadRequest exactly when neither e-mail nor phone is given; refusals write nothing; at most one contact added; with a message, the conversation is reused or one "active" conversation opened and one inbound message of type e-mail (if an e-mail was given) or SMS appended; without one, no conversation or message is written |
| Public.ResolveContactOn | backend/app/routers/public.py:31-51 | the store and the queue change exactly as `ResolveContact` says; a valid store stays valid |
| Public.SubmitContactForm | backend/app/routers/public.py:11-76 | the store and the queue change exactly as `SubmitContactFormSpec` says; a valid store stays valid |
| Public.LowStockEventsAreLowItems | backend/app/routers/public.py:126-129 | the scan queues exactly one INVENTORY_LOW per item with `quantity <= threshold`, in item order |
| Public.QueueLowStock | backend/app/routers/public.py:126-129 | the loop appends exactly `LowStockEvents` of the items to the queue |
| Public.CreateBookingSpec | backend/app/routers/public.py:83-131 | NotFound exactly when the service is not in the path workspace or the contact does not exist, writing and queuing nothing; otherwise one confirmed booking ending `duration` minutes after its start; BOOKING_CREATED is queued, then the low-stock events of the workspace's items; only the booking table changes |
| Public.CreateBooking | backend/app/routers/public.py:83-131 | the store and the queue change exactly as `CreateBookingSpec` says; a valid store stays valid |
| Conversations.ListConversations | backend/app/routers/conversations.py:16-22 | exactly the conversations of the caller's workspace |
| Conversations.GetMessages | backend/app/routers/conversations.py:24-33 | NotFound exactly when the conversation is not in the caller's workspace; otherwise exactly its messages |
| Conversations.Paused | backend/app/routers/conversations.py:57-58 | only the found conversation's status changes, to "paused" |
| Conversations.PausedKeepsValid | backend/app/routers/conversations.py:57-58 | pausing keeps the invariant |
| Conversations.ReplySpec | backend/app/routers/conversations.py:35-64 | NotFound exactly outside the caller's workspace, writing nothing; otherwise one outbound message with the reply's content and type, e-mail when the form leaves it out; the conversation ends "paused"; STAFF_REPLY is queued exactly when it was not paused before |
| Conversations.ReplyTwice | backend/app/routers/conversations.py:57-60 | a second reply queues nothing and leaves the conversation paused |
| Conversations.ReplyToConversation | backend/app/routers/conversations.py:35-64 | the store and the queue change exactly as `ReplySpec` says; a valid store stays valid |
| Integrations.Merge | backend/app/routers/integrations.py:27-30 | the keys are the union; supplied channels take the new value; every other channel is kept |
| Integrations.MergeIdempotent | backend/app/routers/integrations.py:27-30 | merging the same channels twice equals merging once |
| Integrations.UpdateIntegrationsSpec | backend/app/routers/integrations.py:15-38 | NotFound exactly without a workspace; otherwise only that workspace's settings become the merge, which is returned |
| Integrations.UpdateIntegrationsTwice | backend/app/routers/integrations.py:27-30 | the same configuration sent twice leaves the state as once did |
| Integrations.UpdateIntegrations | backend/app/routers/integrations.py:15-38 | the store changes exactly as `UpdateIntegrationsSpec` says; a valid store stays valid |
| Integrations.TestIntegrationSpec | backend/app/routers/integrations.py:40-63 | a missing workspace raises; an unconfigured channel is BadRequest with no log; otherwise exactly one "success" log for the channel and nothing else changes |
| Integrations.TestIntegration | backend/app/routers/integrations.py:40-63 | the store changes exactly as `TestIntegrationSpec` says; a valid store stays valid |
| Staff.InviteStaffSpec | backend/app/routers/staff.py:15-38 | Forbidden exactly for a non-owner, before any e-mail check; BadRequest exactly for an owner inviting a taken e-mail; refusals write nothing; otherwise one staff user of the inviter's workspace; e-mails stay unique |
| Staff.InviteTwice | backend/app/routers/staff.py:26-28 | after a successful invitation, inviting the same e-mail again is refused |
| Staff.InviteStaff | backend/app/routers/staff.py:15-38 | the store changes exactly as `InviteStaffSpec` says; a valid store stays valid |
| Staff.ListStaff | backend/app/routers/staff.py:40-48 | exactly the staff users of the caller's workspace; owners excluded |
| AutomationRules.CreateRuleSpec | backend/app/routers/automation.py:26-48 | NotFound exactly when the template is not in the caller's workspace, and no rule is created; otherwise one rule in the caller's workspace copying the form, active (1) by default |
| AutomationRules.CreateRule | backend/app/routers/automation.py:26-48 | the store changes exactly as `CreateRuleSpec` says; a valid store stays valid |
| AutomationRules.ListRules | backend/app/routers/automation.py:50-55 | exactly the rules of the caller's workspace |
| AutomationRules.DeleteRuleSpec | backend/app/routers/automation.py:57-69 | NotFound exactly when no rule of the caller's workspace has the id; otherwise exactly that row is removed and the rest keep their order |
| AutomationRules.DeleteRule | backend/app/routers/automation.py:57-69 | the store changes exactly as `DeleteRuleSpec` says; a valid store stays valid |
| Common.RemoveAt | backend/app/routers/automation.py:67 | removing one row: the others are kept in order, and the multiset loses exactly that row |
| Services.SlotRows | backend/app/routers/services.py:41-48 | one availability row per slot, in order, pointing at the service, with day and times copied |
| Services.CreateServiceSpec | backend/app/routers/services.py:23-51 | a missing workspace raises on `workspace.id`; otherwise one service in the caller's workspace copying the form, followed by one availability per slot in order; under the invariant those are the service's only slots |
| Services.NoSlotsNoAvailability | backend/app/routers/services.py:41 | a service created without slots has no availability |
| Services.AddSlots | backend/app/routers/services.py:41-48 | the loop appends exactly `SlotRows` of the slots, keyed in order, and changes nothing else; a valid store stays valid when the service exists |
| Services.SlotsKeepValid | backend/app/routers/services.py:41-48 | appending the slot rows of an existing service keeps the invariant |
| Services.CreateService | backend/app/routers/services.py:23-51 | the store ends exactly as `CreateServiceSpec` says; a valid store stays valid |
| Services.ListServices | backend/app/routers/services.py:53-58 | exactly the services of the caller's workspace |
| Inventory.CreateItemSpec | backend/app/routers/inventory.py:11-31 | one item in the caller's workspace with the form's name and quantity, threshold 5 when omitted; nothing else changes |
| Inventory.CreateItem | backend/app/routers/inventory.py:16-31 | the store changes exactly as `CreateItemSpec` says; a valid store stays valid |
| Inventory.ListInventory | backend/app/routers/inventory.py:33-38 | exactly the items of the caller's workspace |
| Forms.CreateTemplateSpec | backend/app/routers/forms.py:16-30 | one template in the caller's workspace with the form's name and schema; existing templates unchanged |
| Forms.CreateTemplate | backend/app/routers/forms.py:16-30 | the store changes exactly as `CreateTemplateSpec` says; a valid store stays valid |
| Forms.ListForms | backend/app/routers/forms.py:32-37 | exactly the templates of the caller's workspace |
| Dashboard.BookingCount | backend/app/routers/dashboard.py:21 | the number of bookings whose service belongs to the caller's workspace |
| Dashboard.ContactCount | backend/app/routers/dashboard.py:22 | the number of contacts of the workspace |
| Dashboard.ActiveConversationCount | backend/app/routers/dashboard.py:23 | the number of the workspace's conversations with status "active"; paused ones excluded |
| Dashboard.PendingFormCount | backend/app/routers/dashboard.py:24 | the number of pending submissions whose template belongs to the workspace |
| Dashboard.UnreadAlerts | backend/app/routers/dashboard.py:26 | exactly the workspace's alerts with `is_read` false |
| Dashboard.OtherBookingInvisible | backend/app/routers/dashboard.py:21 | a booking whose service is not the workspace's does not change its bookings count |
| Dashboard.OtherSubmissionInvisible | backend/app/routers/dashboard.py:24 | a submission of a template that is not the workspace's does not change its pending-forms count |
| Dashboard.OtherWorkspaceInvisible | backend/app/routers/dashboard.py:19-26 | rows of another workspace do not change the caller's statistics: a contact, conversation or alert of another workspace, a booking of a service that is not the caller's workspace's and a submission of a template that is not the caller's workspace's |
| Flows.NewContactWelcomed | backend/app/routers/public.py:39-51 | a first enquiry without a message, handled by the started engine, yields one contact, one "active" conversation and one outbound welcome message, SMS when a phone was given |

## Left out

- Dashboard.DashboardStats: the endpoint is a function of the database, so "computing statistics writes nothing" holds by construction; its five parts are stated on the count functions.
- Inventory usage (decrementing stock per booking) and a FORM_SUBMITTED rule evaluator: no code implementing them is part of this model (the inventory router defines only create and list, and `start_automation` subscribes nothing to FORM_SUBMITTED).
- Authentication (`auth.py`, `deps.get_current_active_user`, JWTs, passwords): the caller arrives as a `User` value, and `get_password_hash` is the parameter `hash`.
- The frontend, seed and set-up scripts, configuration, and the HTTP test script: UI and I/O without model logic.
- Pydantic validation, including `EmailStr`: a foreign library; the forms arrive as already-validated values.
- SQLAlchemy sessions, relationships, `flag_modified`, server-side timestamps (`created_at`, `timestamp`, `last_message_at`) and `print` logging: a session is the in-memory `Db`, and timestamps and logs carry no behaviour here.
- Per-table autoincrement: one shared `nextId` counter gives fresh keys instead, and every key an operation hands out is the current `nextId`.
- Models.Db.Valid: states only that every key is below `nextId`, not that the ids of a table are pairwise distinct; the `…ById` lookups and the dashboard's bookings-through-services count take the first matching row, which is the only one in a state these operations reach, but the model does not prove that.
- FastAPI `BackgroundTasks` scheduling and any concurrency between requests: deferral is an explicit queue drained in order after the endpoint answers; no interleaving of requests is modelled.
- `dateutil.parser.parse` and `datetime`: start and end times are integer minute counts, and the confirmation text renders the start as that number instead of `str(datetime)`.
- Handler commits part-way: the welcome handler commits the new conversation before adding the message; the model treats the handler as one step, which differs only if the second commit failed, and it cannot fail here.
- Staff replies with a message type other than "email", "sms" or "system": `Reply` carries a `MessageType`, so the failing insert of an unknown type string is not modelled.
- Users whose `workspace_id` is null: the caller's `workspaceId` is an integer.
- The missing imports of `public.py` (`BaseModel`, `Service`, `Booking`, `InventoryItem` are used but not imported, so the module as written fails on import): the model gives the evident behaviour of its two endpoints.
- Workspaces.ActivateSpec: follows the code, which has no prior-status check, so activating an already active workspace succeeds (see `ActivateTwice`); the documented lifecycle is draft → active only.
- Services.CreateServiceSpec: the slot times are kept as the strings the form sends, and the second commit (backend/app/routers/services.py:41-50) always succeeds in the model. In the source, a time that the `Time` columns (backend/app/models/operations.py:32-33) reject makes that commit raise: the service committed at services.py:38 stays without slots, and the caller gets a 500. Parsing time strings belongs to the database driver.
- Services.CreateServiceSpec and Inventory.CreateItemSpec: integers are unbounded. On the default PostgreSQL database (backend/app/core/config.py:30), `duration`, `day_of_week`, `quantity` and `low_stock_threshold` are 32-bit INTEGER columns, so an out-of-range value makes the insert raise (a 500). The model accepts such a value.
- Public.CreateBookingSpec: follows the code, which looks the contact up by id in any workspace, so a booking may name another workspace's contact.

/** The owner's dashboard (backend/app/routers/dashboard.py): four counts over
    the caller's workspace and its unread alerts. It is a function of the
    database and writes nothing. */
module Dashboard {
  import opened Common
  import opened Models

  datatype Stats = Stats(bookings: nat, contacts: nat, activeConversations: nat, pendingForms: nat, alerts: seq<Alert>)

  /** `len(filter(f, s))` through `FilterSize`. */
  function Count<T>(s: seq<T>, f: T -> bool): (n: nat)
    ensures n == |IndicesWhere(s, f)|
  {
    FilterSize(s, f);
    |Filter(s, f)|
  }

  /** The bookings count: bookings whose service is one of the workspace's. */
  function BookingCount(db: Db, ws: int): (n: nat)
    ensures n == |(set i: nat | i < |db.bookings| &&
                  exists s :: s in db.services && s.id == db.bookings[i].serviceId && s.workspaceId == ws)|
  {
    var f := (b: Booking) => ServiceInWorkspace(db.services, b.serviceId, ws).Some?;
    assert IndicesWhere(db.bookings, f) ==
           set i: nat | i < |db.bookings| &&
             exists s :: s in db.services && s.id == db.bookings[i].serviceId && s.workspaceId == ws;
    Count(db.bookings, f)
  }

  /** The contacts count: contacts of the workspace. */
  function ContactCount(db: Db, ws: int): (n: nat)
    ensures n == |(set i: nat | i < |db.contacts| && db.contacts[i].workspaceId == ws)|
  {
    var f := (c: Contact) => c.workspaceId == ws;
    assert IndicesWhere(db.contacts, f) == set i: nat | i < |db.contacts| && db.contacts[i].workspaceId == ws;
    Count(db.contacts, f)
  }

  /** The active-conversations count: conversations of the workspace whose status
      is "active"; paused ones are not counted. */
  function ActiveConversationCount(db: Db, ws: int): (n: nat)
    ensures n == |(set i: nat | i < |db.conversations| && db.conversations[i].workspaceId == ws &&
                  db.conversations[i].status == ACTIVE_CONVERSATION)|
  {
    var f := (c: Conversation) => c.workspaceId == ws && c.status == ACTIVE_CONVERSATION;
    assert IndicesWhere(db.conversations, f) ==
           set i: nat | i < |db.conversations| && db.conversations[i].workspaceId == ws &&
             db.conversations[i].status == ACTIVE_CONVERSATION;
    Count(db.conversations, f)
  }

  /** The pending-forms count: pending submissions of the workspace's templates. */
  function PendingFormCount(db: Db, ws: int): (n: nat)
    ensures n == |(set i: nat | i < |db.submissions| && db.submissions[i].status == Pending &&
                  exists t :: t in db.templates && t.id == db.submissions[i].templateId && t.workspaceId == ws)|
  {
    var f := (x: FormSubmission) => TemplateInWorkspace(db.templates, x.templateId, ws).Some? && x.status == Pending;
    assert IndicesWhere(db.submissions, f) ==
           set i: nat | i < |db.submissions| && db.submissions[i].status == Pending &&
             exists t :: t in db.templates && t.id == db.submissions[i].templateId && t.workspaceId == ws;
    Count(db.submissions, f)
  }

  /** The alerts shown: exactly the workspace's unread alerts. */
  function UnreadAlerts(alerts: seq<Alert>, ws: int): (r: seq<Alert>)
    ensures forall a | a in r :: a in alerts && a.workspaceId == ws && !a.isRead
    ensures forall a | a in alerts && a.workspaceId == ws && !a.isRead :: a in r
  {
    Filter(alerts, (a: Alert) => a.workspaceId == ws && !a.isRead)
  }

  /** get_dashboard_stats for the caller's workspace. */
  function DashboardStats(db: Db, caller: User): Stats {
    var ws := caller.workspaceId;
    Stats(BookingCount(db, ws), ContactCount(db, ws), ActiveConversationCount(db, ws),
          PendingFormCount(db, ws), UnreadAlerts(db.alerts, ws))
  }

  /** A booking whose service is not one of the workspace's leaves its bookings
      count as it was. */
  lemma OtherBookingInvisible(db: Db, ws: int, b: Booking)
    requires forall s | s in db.services && s.id == b.serviceId :: s.workspaceId != ws
    ensures BookingCount(db.(bookings := db.bookings + [b]), ws) == BookingCount(db, ws)
  {
    var bs := db.bookings + [b];
    assert (set i: nat | i < |bs| && exists s :: s in db.services && s.id == bs[i].serviceId && s.workspaceId == ws) ==
           (set i: nat | i < |db.bookings| && exists s :: s in db.services && s.id == db.bookings[i].serviceId && s.workspaceId == ws)
    by {
      forall i: nat | i < |db.bookings| ensures bs[i] == db.bookings[i] { }
    }
  }

  /** A submission of a template that is not one of the workspace's leaves its
      pending-forms count as it was. */
  lemma OtherSubmissionInvisible(db: Db, ws: int, x: FormSubmission)
    requires forall t | t in db.templates && t.id == x.templateId :: t.workspaceId != ws
    ensures PendingFormCount(db.(submissions := db.submissions + [x]), ws) == PendingFormCount(db, ws)
  {
    var xs := db.submissions + [x];
    assert (set i: nat | i < |xs| && xs[i].status == Pending &&
              exists t :: t in db.templates && t.id == xs[i].templateId && t.workspaceId == ws) ==
           (set i: nat | i < |db.submissions| && db.submissions[i].status == Pending &&
              exists t :: t in db.templates && t.id == db.submissions[i].templateId && t.workspaceId == ws)
    by {
      forall i: nat | i < |db.submissions| ensures xs[i] == db.submissions[i] { }
    }
  }

  /** Another workspace's rows do not move the caller's statistics: adding a
      contact, conversation or alert of a different workspace, a booking of a
      service that is not the caller's workspace's and a submission of a template
      that is not the caller's workspace's leaves them as they were. */
  lemma {:induction false} OtherWorkspaceInvisible(db: Db, caller: User, c: Contact, v: Conversation, a: Alert,
                                                   b: Booking, x: FormSubmission)
    requires c.workspaceId != caller.workspaceId
    requires v.workspaceId != caller.workspaceId
    requires a.workspaceId != caller.workspaceId
    requires forall s | s in db.services && s.id == b.serviceId :: s.workspaceId != caller.workspaceId
    requires forall t | t in db.templates && t.id == x.templateId :: t.workspaceId != caller.workspaceId
    ensures var db' := db.(contacts := db.contacts + [c], conversations := db.conversations + [v], alerts := db.alerts + [a],
                           bookings := db.bookings + [b], submissions := db.submissions + [x]);
            DashboardStats(db', caller) == DashboardStats(db, caller)
  {
    var ws := caller.workspaceId;
    var db' := db.(contacts := db.contacts + [c], conversations := db.conversations + [v], alerts := db.alerts + [a],
                   bookings := db.bookings + [b], submissions := db.submissions + [x]);
    FilterSnoc(db.contacts, c, (y: Contact) => y.workspaceId == ws);
    FilterSnoc(db.conversations, v, (y: Conversation) => y.workspaceId == ws && y.status == ACTIVE_CONVERSATION);
    FilterSnoc(db.alerts, a, (y: Alert) => y.workspaceId == ws && !y.isRead);
    OtherBookingInvisible(db, ws, b);
    OtherSubmissionInvisible(db, ws, x);
    assert BookingCount(db', ws) == BookingCount(db.(bookings := db.bookings + [b]), ws);
    assert PendingFormCount(db', ws) == PendingFormCount(db.(submissions := db.submissions + [x]), ws);
    assert ContactCount(db', ws) == ContactCount(db, ws);
    assert ActiveConversationCount(db', ws) == ActiveConversationCount(db, ws);
    assert UnreadAlerts(db'.alerts, ws) == UnreadAlerts(db.alerts, ws);
  }
}

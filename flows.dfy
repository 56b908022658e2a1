/** End-to-end behaviour across the routers and the automation engine: what an
    endpoint queues, once the started engine has handled it. */
module Flows {
  import opened Common
  import opened Models
  import opened AutomationHandlers
  import opened Events
  import opened AutomationEngine
  import opened Public

  /** Emitting one NEW_CONTACT event through the started engine runs the welcome
      handler once. */
  lemma DrainNewContact(e: Event, db: Db)
    requires e.kind == NEW_CONTACT
    ensures Drained(AutomationRegistry(map[]), [e], db) == WelcomeEffect(db, e.payload).db
  {
    var reg := AutomationRegistry(map[]);
    assert Registered(reg, NEW_CONTACT) == [WelcomeHandler];
    assert [e][..0] == [];
    var hs: seq<Handler> := [WelcomeHandler];
    assert hs[..0] == [];
  }

  /** In a valid database the contact just appended is the one its id names, and
      it has no conversation yet. */
  lemma FreshContactFound(db: Db, c: Contact, ws: int)
    requires db.Valid()
    requires forall x | x in db.contacts :: x.id != c.id
    ensures WelcomeContact(db.(contacts := db.contacts + [c]), NewContactEvent(c.id, ws).payload) == Some(c)
    ensures ConversationOfContact(db.conversations, c.id).None?
  {
    var contacts := db.contacts + [c];
    assert c in contacts;
    assert FirstIndex(contacts, (x: Contact) => x.id == c.id) == Some(|db.contacts|);
    forall v | v in db.conversations ensures v.contactId != c.id {
      assert HasContact(db.contacts, v.contactId);
    }
  }

  /** The welcome handler on a contact with no conversation and a payload naming
      workspace `ws`: one new conversation and one welcome message in it. */
  lemma WelcomeFresh(db: Db, c: Contact, ws: int)
    requires WelcomeContact(db, NewContactEvent(c.id, ws).payload) == Some(c)
    requires ConversationOfContact(db.conversations, c.id).None?
    ensures var r := WelcomeEffect(db, NewContactEvent(c.id, ws).payload).db;
            && r.contacts == db.contacts
            && r.conversations == db.conversations + [Conversation(db.nextId, ws, c.id, ACTIVE_CONVERSATION)]
            && |r.messages| == |db.messages| + 1
            && r.messages[..|db.messages|] == db.messages
            && LastMessage(r) == Message(LastMessage(r).id, db.nextId, Outbound, WelcomeType(c), WelcomeText(c.name))
  {
    var p := NewContactEvent(c.id, ws).payload;
    assert Get(p, "workspace_id") == Some(ws);
    var r := WelcomeEffect(db, p);
    assert r.result.Handled?;
    assert ConversationOfContact(r.db.conversations, c.id) == Some(Conversation(db.nextId, ws, c.id, ACTIVE_CONVERSATION)) by {
      assert FirstIndex(r.db.conversations, (v: Conversation) => v.contactId == c.id) == Some(|db.conversations|);
    }
  }

  /** A first enquiry without a message (public.py) queues NEW_CONTACT; once the
      engine started by `start_automation` has handled it, the new contact has
      exactly one "active" conversation in the submitted workspace holding one
      outbound welcome message, SMS when a phone was given and e-mail otherwise. */
  lemma {:induction false} NewContactWelcomed(db: Db, ws: int, form: ContactForm)
    requires db.Valid()
    requires !Truthy(form.message)
    requires SubmitContactFormSpec(db, ws, form).response.Ok?
    requires MatchContact(db.contacts, ws, form).None?
    ensures var t := SubmitContactFormSpec(db, ws, form);
            var id := t.response.value.id;
            var final := Drained(AutomationRegistry(map[]), t.queued, t.db);
            && final.contacts == db.contacts + [Contact(id, ws, form.name, form.email, form.phone)]
            && final.conversations == db.conversations + [Conversation(t.db.nextId, ws, id, ACTIVE_CONVERSATION)]
            && |final.messages| == |db.messages| + 1
            && final.messages[..|db.messages|] == db.messages
            && LastMessage(final) == Message(LastMessage(final).id, t.db.nextId, Outbound,
                                             if Truthy(form.phone) then Sms else Email,
                                             WelcomeText(form.name))
  {
    var t := SubmitContactFormSpec(db, ws, form);
    var id := t.response.value.id;
    var c := Contact(id, ws, form.name, form.email, form.phone);
    var e := NewContactEvent(id, ws);
    assert t.queued == [e];
    assert t.db == db.(contacts := db.contacts + [c], nextId := t.db.nextId);
    FreshContactFound(db.(nextId := t.db.nextId), c, ws);
    DrainNewContact(e, t.db);
    WelcomeFresh(t.db, c, ws);
  }
}

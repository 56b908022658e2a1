/** Start-up wiring of the automation engine (`start_automation` in
    backend/app/services/automation.py). */
module AutomationEngine {
  import opened Events
  import opened AutomationHandlers

  /** The registry after the three subscriptions of `start_automation`. */
  function AutomationRegistry(subs: Registry): (r: Registry)
    ensures Registered(r, NEW_CONTACT) == Registered(subs, NEW_CONTACT) + [WelcomeHandler]
    ensures Registered(r, BOOKING_CREATED) == Registered(subs, BOOKING_CREATED) + [BookingHandler]
    ensures Registered(r, INVENTORY_LOW) == Registered(subs, INVENTORY_LOW) + [InventoryLowHandler]
    ensures forall k | k != NEW_CONTACT && k != BOOKING_CREATED && k != INVENTORY_LOW ::
              Registered(r, k) == Registered(subs, k)
  {
    var s1 := Subscribed(subs, NEW_CONTACT, WelcomeHandler);
    var s2 := Subscribed(s1, BOOKING_CREATED, BookingHandler);
    Subscribed(s2, INVENTORY_LOW, InventoryLowHandler)
  }

  /** Started on an empty bus, the engine listens to exactly three kinds, one
      handler each; FORM_SUBMITTED and STAFF_REPLY have no handler. */
  lemma StartedRegistry()
    ensures var r := AutomationRegistry(map[]);
            && r.Keys == {NEW_CONTACT, BOOKING_CREATED, INVENTORY_LOW}
            && r[NEW_CONTACT] == [WelcomeHandler]
            && r[BOOKING_CREATED] == [BookingHandler]
            && r[INVENTORY_LOW] == [InventoryLowHandler]
            && Registered(r, FORM_SUBMITTED) == [] && Registered(r, STAFF_REPLY) == []
  {
  }

  method StartAutomation(bus: EventBus)
    modifies bus
    ensures bus.subscribers == AutomationRegistry(old(bus.subscribers))
  {
    bus.Subscribe(NEW_CONTACT, WelcomeHandler);
    bus.Subscribe(BOOKING_CREATED, BookingHandler);
    bus.Subscribe(INVENTORY_LOW, InventoryLowHandler);
  }
}

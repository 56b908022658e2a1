/** The service catalogue (backend/app/routers/services.py): creating a bookable
    service with its weekly availability slots, and listing the workspace's
    services. */
module Services {
  import opened Common
  import opened Models
  import opened Database

  /** One weekly slot of the form (`AvailabilityCreate`). */
  datatype SlotInput = SlotInput(dayOfWeek: int, startTime: string, endTime: string)

  /** The service form (`ServiceCreate`). */
  datatype ServiceInput = ServiceInput(name: string, duration: int, location: Option<string>, slots: seq<SlotInput>)

  /** The availability rows for `slots`, in order, the k-th keyed `firstId + k`:
      the reference that the slot loop `AddSlots` is proved against. */
  function SlotRows(serviceId: nat, firstId: nat, slots: seq<SlotInput>): (r: seq<Availability>)
    ensures |r| == |slots|
    ensures forall k | 0 <= k < |r| ::
              r[k] == Availability(firstId + k, serviceId, slots[k].dayOfWeek, slots[k].startTime, slots[k].endTime)
  {
    seq(|slots|, k requires 0 <= k < |slots| =>
      Availability(firstId + k, serviceId, slots[k].dayOfWeek, slots[k].startTime, slots[k].endTime))
  }

  /** Adding a service and its slots keeps the database's invariant, and no
      existing slot points at the new service. */
  lemma NewServiceKeepsValid(db: Db, s: Service, slots: seq<SlotInput>)
    requires db.Valid()
    requires s.id == db.nextId
    ensures db.(services := db.services + [s],
                availabilities := db.availabilities + SlotRows(s.id, db.nextId + 1, slots),
                nextId := db.nextId + 1 + |slots|).Valid()
    ensures forall a | a in db.availabilities :: a.serviceId != s.id
  {
    var rows := SlotRows(s.id, db.nextId + 1, slots);
    var services' := db.services + [s];
    assert ServiceExists(services', s.id) by { assert s in services'; }
    forall a | a in db.availabilities + rows ensures ServiceExists(services', a.serviceId) && a.id < db.nextId + 1 + |slots| {
      if a in db.availabilities {
        var x :| x in db.services && x.id == a.serviceId;
        assert x in services';
      } else {
        var k :| 0 <= k < |rows| && rows[k] == a;
      }
    }
    forall a | a in db.availabilities ensures a.serviceId != s.id {
      var x :| x in db.services && x.id == a.serviceId;
    }
  }

  /** create_service: the service goes to the caller's workspace with the form's
      name, duration and location, followed by one availability row per slot, in
      order, each pointing at it. A caller whose workspace row is missing makes
      `workspace.id` raise on None. */
  function CreateServiceSpec(db: Db, caller: User, input: ServiceInput): (r: Transition<Service>)
    ensures r.queued == []
    ensures r.response.Ok? || r.response.ServerError?
    ensures r.response.ServerError? <==> forall w | w in db.workspaces :: w.id != caller.workspaceId
    ensures r.response.ServerError? ==> r.db == db
    ensures r.response.Ok? ==>
      r.response.value == Service(r.response.value.id, caller.workspaceId, input.name, input.duration, input.location)
    ensures r.response.Ok? ==>
      r.db == db.(services := db.services + [r.response.value], availabilities := r.db.availabilities, nextId := r.db.nextId)
    ensures r.response.Ok? ==>
      r.db.availabilities == db.availabilities + SlotRows(r.response.value.id, r.response.value.id + 1, input.slots)
    ensures r.response.Ok? && db.Valid() ==>
      forall a | a in r.db.availabilities && a.serviceId == r.response.value.id :: a in r.db.availabilities[|db.availabilities|..]
    ensures db.Valid() ==> r.db.Valid()
  {
    match WorkspaceById(db.workspaces, caller.workspaceId)
    case None => Transition(db, ServerError("'NoneType' object has no attribute 'id'"), [])
    case Some(w) =>
      var s := Service(db.nextId, w.id, input.name, input.duration, input.location);
      var rows := SlotRows(s.id, db.nextId + 1, input.slots);
      var db' := db.(services := db.services + [s], availabilities := db.availabilities + rows,
                     nextId := db.nextId + 1 + |input.slots|);
      assert db'.availabilities[|db.availabilities|..] == rows;
      assert db.Valid() ==> db'.Valid() && forall a | a in db.availabilities :: a.serviceId != s.id by {
        if db.Valid() { NewServiceKeepsValid(db, s, input.slots); }
      }
      Transition(db', Ok(s), [])
  }

  /** A service created with no slots has no availability, so on its own it
      does not make its workspace bookable. */
  lemma {:induction false} NoSlotsNoAvailability(db: Db, caller: User, input: ServiceInput)
    requires db.Valid()
    requires input.slots == []
    requires CreateServiceSpec(db, caller, input).response.Ok?
    ensures var r := CreateServiceSpec(db, caller, input);
            forall a | a in r.db.availabilities :: a.serviceId != r.response.value.id
  {
    var r := CreateServiceSpec(db, caller, input);
    assert r.db.availabilities[|db.availabilities|..] == [];
  }

  /** Appending the slot rows of an existing service keeps the database's
      invariant. */
  lemma SlotsKeepValid(db: Db, serviceId: nat, slots: seq<SlotInput>)
    requires db.Valid()
    requires ServiceExists(db.services, serviceId)
    ensures db.(availabilities := db.availabilities + SlotRows(serviceId, db.nextId, slots),
                nextId := db.nextId + |slots|).Valid()
  {
    var rows := SlotRows(serviceId, db.nextId, slots);
    forall a | a in db.availabilities + rows ensures ServiceExists(db.services, a.serviceId) && a.id < db.nextId + |slots| {
      if a !in db.availabilities {
        var k :| 0 <= k < |rows| && rows[k] == a;
      }
    }
  }

  /** The slot loop of create_service: one availability row per slot, in order,
      each with the next key. */
  method AddSlots(store: Store, serviceId: nat, slots: seq<SlotInput>)
    modifies store
    ensures store.Snapshot() == old(store.Snapshot()).(
      availabilities := old(store.availabilities) + SlotRows(serviceId, old(store.nextId), slots),
      nextId := old(store.nextId) + |slots|)
    ensures old(store.Valid()) && ServiceExists(old(store.services), serviceId) ==> store.Valid()
  {
    ghost var db0 := store.Snapshot();
    var k := 0;
    while k < |slots|
      invariant 0 <= k <= |slots|
      invariant store.Snapshot() == db0.(
        availabilities := db0.availabilities + SlotRows(serviceId, db0.nextId, slots[..k]),
        nextId := db0.nextId + k)
    {
      var slot := slots[k];
      var slotId := store.NewId();
      var row := Availability(slotId, serviceId, slot.dayOfWeek, slot.startTime, slot.endTime);
      store.availabilities := store.availabilities + [row];
      assert SlotRows(serviceId, db0.nextId, slots[..k + 1]) == SlotRows(serviceId, db0.nextId, slots[..k]) + [row];
      k := k + 1;
    }
    assert slots[..|slots|] == slots;
    if db0.Valid() && ServiceExists(db0.services, serviceId) { SlotsKeepValid(db0, serviceId, slots); }
  }

  /** create_service on a store: the service row, then one availability row per slot. */
  method CreateService(store: Store, caller: User, input: ServiceInput) returns (r: Response<Service>)
    modifies store
    ensures Transition(store.Snapshot(), r, []) == CreateServiceSpec(old(store.Snapshot()), caller, input)
    ensures old(store.Valid()) ==> store.Valid()
  {
    var workspace := WorkspaceById(store.workspaces, caller.workspaceId);
    if workspace.None? {
      return ServerError("'NoneType' object has no attribute 'id'");
    }
    var id := store.NewId();
    var s := Service(id, workspace.value.id, input.name, input.duration, input.location);
    store.services := store.services + [s];
    AddSlots(store, s.id, input.slots);
    assert store.Snapshot() == old(store.Snapshot()).(services := old(store.services) + [s],
      availabilities := old(store.availabilities) + SlotRows(s.id, id + 1, input.slots),
      nextId := id + 1 + |input.slots|);
    r := Ok(s);
  }

  /** list_services: exactly the services of the caller's workspace. */
  function ListServices(services: seq<Service>, caller: User): (r: seq<Service>)
    ensures forall s | s in r :: s in services && s.workspaceId == caller.workspaceId
    ensures forall s | s in services && s.workspaceId == caller.workspaceId :: s in r
  {
    Filter(services, (s: Service) => s.workspaceId == caller.workspaceId)
  }
}

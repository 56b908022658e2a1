/** The in-process event bus (backend/app/core/events.py): a registry from event
    kind to the ordered list of its handlers, `subscribe`, and `emit`, which calls
    each handler of the kind in turn and catches what each one raises. Deferred
    dispatch (`background_tasks.add_task(events.emit, ...)`) is the queue
    `BackgroundTasks`, drained after the endpoint has answered. */
module Events {
  import opened Common
  import opened Models
  import opened Database
  import opened AutomationHandlers

  const NEW_CONTACT := "NEW_CONTACT"
  const BOOKING_CREATED := "BOOKING_CREATED"
  const BOOKING_REMINDER := "BOOKING_REMINDER"
  const FORM_PENDING := "FORM_PENDING"
  const FORM_OVERDUE := "FORM_OVERDUE"
  const INVENTORY_LOW := "INVENTORY_LOW"
  const STAFF_REPLY := "STAFF_REPLY"
  const FORM_SUBMITTED := "FORM_SUBMITTED"

  /** The predefined event kinds, no two alike. */
  function EventKinds(): (r: seq<string>)
    ensures |r| == 8
    ensures forall i, j | 0 <= i < j < |r| :: r[i] != r[j]
  {
    [NEW_CONTACT, BOOKING_CREATED, BOOKING_REMINDER, FORM_PENDING,
     FORM_OVERDUE, INVENTORY_LOW, STAFF_REPLY, FORM_SUBMITTED]
  }

  type Registry = map<string, seq<Handler>>

  /** The handlers registered for `kind`, in registration order. */
  function Registered(subs: Registry, kind: string): seq<Handler> {
    if kind in subs then subs[kind] else []
  }

  /** The registry after `subscribe(kind, h)`: `h` goes to the end of `kind`'s
      list, which is created when absent; no other kind's list changes. */
  function Subscribed(subs: Registry, kind: string, h: Handler): (r: Registry)
    ensures Registered(r, kind) == Registered(subs, kind) + [h]
    ensures forall k | k != kind :: Registered(r, k) == Registered(subs, k)
    ensures r.Keys == subs.Keys + {kind}
  {
    subs[kind := Registered(subs, kind) + [h]]
  }

  /** There is no de-duplication: subscribing a handler twice registers it twice. */
  lemma SubscribeTwice(subs: Registry, kind: string, h: Handler)
    ensures Registered(Subscribed(Subscribed(subs, kind, h), kind, h), kind) == Registered(subs, kind) + [h, h]
  {
  }

  datatype Dispatch = Dispatch(db: Db, results: seq<HandlerResult>)

  /** Calling `hs` one after another, each on the database the previous one left,
      each with payload `p`; a handler that raises is recorded and the next one runs. */
  function RunHandlers(hs: seq<Handler>, p: Payload, db: Db): (r: Dispatch)
    ensures |r.results| == |hs|
    decreases |hs|
  {
    if |hs| == 0 then Dispatch(db, [])
    else
      var before := RunHandlers(hs[..|hs| - 1], p, db);
      var step := Invoke(hs[|hs| - 1], p, before.db);
      Dispatch(step.db, before.results + [step.result])
  }

  /** Running `a + b` is running `a`, then `b` on what `a` left. */
  lemma {:induction false} RunHandlersAppend(a: seq<Handler>, b: seq<Handler>, p: Payload, db: Db)
    ensures var first := RunHandlers(a, p, db);
            var rest := RunHandlers(b, p, first.db);
            RunHandlers(a + b, p, db) == Dispatch(rest.db, first.results + rest.results)
    decreases |b|
  {
    if |b| == 0 {
      assert a + b == a;
    } else {
      var n := |b| - 1;
      assert (a + b)[..|a + b| - 1] == a + b[..n];
      assert (a + b)[|a + b| - 1] == b[n];
      RunHandlersAppend(a, b[..n], p, db);
    }
  }

  /** The i-th recorded result is that of calling the i-th registered handler, with
      the emitted payload, on the database its predecessors left: each handler
      runs exactly once, in registration order. */
  lemma {:induction false} HandlersRunInOrder(hs: seq<Handler>, p: Payload, db: Db, i: nat)
    requires i < |hs|
    ensures RunHandlers(hs, p, db).results[i] == Invoke(hs[i], p, RunHandlers(hs[..i], p, db).db).result
    decreases |hs|
  {
    var n := |hs| - 1;
    if i < n {
      HandlersRunInOrder(hs[..n], p, db, i);
      assert hs[..n][..i] == hs[..i];
    } else {
      assert hs[..i] == hs[..n];
    }
  }

  /** Failure isolation: a handler that raises between `before` and `after` is
      recorded as raised, writes nothing, and does not stop `after` from running. */
  lemma FailingHandlerIsolated(before: seq<Handler>, after: seq<Handler>, p: Payload, db: Db)
    ensures var all := RunHandlers(before + [Failing] + after, p, db);
            && all.db == RunHandlers(before + after, p, db).db
            && all.results[|before|].Raised?
            && all.results[|before| + 1..] == RunHandlers(after, p, RunHandlers(before, p, db).db).results
  {
    var first := RunHandlers(before, p, db);
    RunHandlersAppend(before, [Failing], p, db);
    assert RunHandlers([Failing], p, first.db) == Dispatch(first.db, [Raised("handler raised an exception")]) by {
      assert [Failing][..0] == [];
    }
    RunHandlersAppend(before + [Failing], after, p, db);
    RunHandlersAppend(before, after, p, db);
  }

  /** Every dispatch keeps the database's integrity invariant. */
  lemma {:induction false} RunHandlersKeepValid(hs: seq<Handler>, p: Payload, db: Db)
    requires db.Valid()
    ensures RunHandlers(hs, p, db).db.Valid()
    decreases |hs|
  {
    if |hs| > 0 {
      RunHandlersKeepValid(hs[..|hs| - 1], p, db);
      InvokeKeepsValid(hs[|hs| - 1], p, RunHandlers(hs[..|hs| - 1], p, db).db);
    }
  }

  /** The process-wide `subscribers` registry. */
  class EventBus {
    var subscribers: Registry

    constructor ()
      ensures subscribers == map[]
    {
      subscribers := map[];
    }

    method Subscribe(kind: string, h: Handler)
      modifies this
      ensures subscribers == Subscribed(old(subscribers), kind, h)
    {
      if kind !in subscribers {
        subscribers := subscribers[kind := []];
      }
      subscribers := subscribers[kind := subscribers[kind] + [h]];
    }

    /** `emit(kind, payload)`: calls exactly the handlers registered for `kind`, in
        order, and returns what each call did (the source logs a raised error and
        goes on). The registry is not written. */
    method Emit(kind: string, payload: Payload, store: Store) returns (results: seq<HandlerResult>)
      modifies store
      ensures Dispatch(store.Snapshot(), results) == RunHandlers(Registered(subscribers, kind), payload, old(store.Snapshot()))
      ensures kind !in subscribers ==> results == [] && store.Snapshot() == old(store.Snapshot())
      ensures old(store.Valid()) ==> store.Valid()
    {
      results := [];
      if kind in subscribers {
        var hs := subscribers[kind];
        ghost var db0 := store.Snapshot();
        var i := 0;
        while i < |hs|
          invariant 0 <= i <= |hs|
          invariant Dispatch(store.Snapshot(), results) == RunHandlers(hs[..i], payload, db0)
        {
          assert hs[..i + 1][..i] == hs[..i];
          var r := Call(hs[i], store, payload);
          results := results + [r];
          i := i + 1;
        }
        assert hs[..|hs|] == hs;
        if db0.Valid() { RunHandlersKeepValid(hs, payload, db0); }
      }
    }
  }

  /** The database after the queued events are emitted one after another. */
  function Drained(subs: Registry, events: seq<Event>, db: Db): Db
    decreases |events|
  {
    if |events| == 0 then db
    else
      var e := events[|events| - 1];
      RunHandlers(Registered(subs, e.kind), e.payload, Drained(subs, events[..|events| - 1], db)).db
  }

  /** Draining a queue keeps the database's integrity invariant. */
  lemma {:induction false} DrainedKeepsValid(subs: Registry, events: seq<Event>, db: Db)
    requires db.Valid()
    ensures Drained(subs, events, db).Valid()
    decreases |events|
  {
    if |events| > 0 {
      var e := events[|events| - 1];
      DrainedKeepsValid(subs, events[..|events| - 1], db);
      RunHandlersKeepValid(Registered(subs, e.kind), e.payload, Drained(subs, events[..|events| - 1], db));
    }
  }

  /** The request's background tasks: emits queued by an endpoint, run after it answers. */
  class BackgroundTasks {
    var pending: seq<Event>

    constructor ()
      ensures pending == []
    {
      pending := [];
    }

    method AddTask(e: Event)
      modifies this
      ensures pending == old(pending) + [e]
    {
      pending := pending + [e];
    }
  }

  /** Runs the queued emits in the order they were added and empties the queue. */
  method RunBackgroundTasks(tasks: BackgroundTasks, bus: EventBus, store: Store)
    modifies tasks, store
    ensures store.Snapshot() == Drained(bus.subscribers, old(tasks.pending), old(store.Snapshot()))
    ensures tasks.pending == []
    ensures old(store.Valid()) ==> store.Valid()
  {
    var events := tasks.pending;
    ghost var db0 := store.Snapshot();
    var i := 0;
    while i < |events|
      invariant 0 <= i <= |events|
      invariant store.Snapshot() == Drained(bus.subscribers, events[..i], db0)
    {
      assert events[..i + 1][..i] == events[..i];
      var _ := bus.Emit(events[i].kind, events[i].payload, store);
      i := i + 1;
    }
    assert events[..|events|] == events;
    if db0.Valid() { DrainedKeepsValid(bus.subscribers, events, db0); }
    tasks.pending := [];
  }
}

/** The workspace lifecycle (backend/app/routers/workspaces.py): onboarding a
    business creates a draft workspace and its owner; the owner activates it once
    a channel, a service and an availability slot exist. */
module Workspaces {
  import opened Common
  import opened Models
  import opened Database

  /** The onboarding form (`WorkspaceCreate`); `None` is a form that leaves
      `timezone` out, which the schema fills with `DEFAULT_TIMEZONE`. */
  datatype WorkspaceCreate = WorkspaceCreate(
    name: string, address: Option<string>, timezone: Option<string>, contactEmail: string,
    ownerEmail: string, ownerPassword: string)

  const DEFAULT_TIMEZONE := "UTC"
  const USER_EXISTS := "User with this email already exists"

  /** create_workspace: refuses an owner e-mail that is already registered;
      otherwise adds a draft workspace without settings and an owner of it whose
      password is stored hashed. `hash` stands for `get_password_hash`. */
  function CreateWorkspaceSpec(db: Db, input: WorkspaceCreate, hash: string -> string): (r: Transition<Workspace>)
    ensures r.queued == []
    ensures r.response.Ok? || r.response == BadRequest(USER_EXISTS)
    ensures r.response.BadRequest? <==> exists u :: u in db.users && u.email == input.ownerEmail
    ensures r.response.BadRequest? ==> r.db == db
    ensures r.response.Ok? ==>
      var w := r.response.value;
      && r.db == db.(workspaces := db.workspaces + [w], users := r.db.users, nextId := r.db.nextId)
      && w == Workspace(w.id, input.name, input.address, input.timezone.GetOr(DEFAULT_TIMEZONE), input.contactEmail, Draft, None)
      && (db.Valid() ==> forall x | x in db.workspaces :: x.id != w.id)
      && |r.db.users| == |db.users| + 1
      && r.db.users[..|db.users|] == db.users
      && r.db.users[|db.users|] == User(r.db.users[|db.users|].id, input.ownerEmail, hash(input.ownerPassword), Owner, w.id)
    ensures db.Valid() ==> r.db.Valid()
  {
    if UserByEmail(db.users, input.ownerEmail).Some? then
      Transition(db, BadRequest(USER_EXISTS), [])
    else
      var w := Workspace(db.nextId, input.name, input.address, input.timezone.GetOr(DEFAULT_TIMEZONE), input.contactEmail, Draft, None);
      var owner := User(db.nextId + 1, input.ownerEmail, hash(input.ownerPassword), Owner, w.id);
      var db' := db.(workspaces := db.workspaces + [w], users := db.users + [owner], nextId := db.nextId + 2);
      assert db.Valid() ==> db'.Valid() by {
        if db.Valid() {
          forall i, j | 0 <= i < j < |db'.users| ensures db'.users[i].email != db'.users[j].email {
            if j == |db.users| {
              assert db'.users[i] in db.users;
            }
          }
        }
      }
      Transition(db', Ok(w), [])
  }

  /** create_workspace on a store. */
  method CreateWorkspace(store: Store, input: WorkspaceCreate, hash: string -> string) returns (r: Response<Workspace>)
    modifies store
    ensures Transition(store.Snapshot(), r, []) == CreateWorkspaceSpec(old(store.Snapshot()), input, hash)
    ensures old(store.Valid()) ==> store.Valid()
  {
    var existing := UserByEmail(store.users, input.ownerEmail);
    if existing.Some? {
      return BadRequest(USER_EXISTS);
    }
    var workspaceId := store.NewId();
    var w := Workspace(workspaceId, input.name, input.address, input.timezone.GetOr(DEFAULT_TIMEZONE), input.contactEmail, Draft, None);
    store.workspaces := store.workspaces + [w];
    var userId := store.NewId();
    store.users := store.users + [User(userId, input.ownerEmail, hash(input.ownerPassword), Owner, workspaceId)];
    r := Ok(w);
  }

  /** list_workspaces: the caller's own workspace, when it exists, and nothing else. */
  function ListWorkspaces(workspaces: seq<Workspace>, caller: User): (r: seq<Workspace>)
    ensures |r| <= 1
    ensures forall w | w in r :: w in workspaces && w.id == caller.workspaceId
    ensures r == [] <==> forall w | w in workspaces :: w.id != caller.workspaceId
  {
    match WorkspaceById(workspaces, caller.workspaceId)
    case None => []
    case Some(w) => [w]
  }

  /** The channel guard as written: the outer condition also holds for settings
      that name neither "email" nor "sms", but only the inner test of empty
      settings raises, so any non-empty configuration passes. */
  function ChannelConfigured(settings: Option<Settings>): (ok: bool)
    ensures ok <==> settings.Some? && settings.value != map[]
  {
    var falsy := settings.None? || |settings.value| == 0;
    var namesChannel := settings.Some? && ("email" in settings.value || "sms" in settings.value);
    !((falsy || !namesChannel) && falsy)
  }

  /** `workspace.services` */
  function WorkspaceServices(services: seq<Service>, wsId: int): seq<Service> {
    Filter(services, (s: Service) => s.workspaceId == wsId)
  }

  /** `s.availabilities` is non-empty. */
  function ServiceHasAvailability(availabilities: seq<Availability>, s: Service): bool {
    First(availabilities, (a: Availability) => a.serviceId == s.id).Some?
  }

  /** `any(s.availabilities for s in services)` */
  function AnyAvailable(availabilities: seq<Availability>, services: seq<Service>): bool {
    First(services, (s: Service) => ServiceHasAvailability(availabilities, s)).Some?
  }

  const WORKSPACE_NOT_FOUND := "Workspace not found"
  const NOT_AUTHORIZED := "Not authorized"
  const NO_INTEGRATIONS := "Integrations not configured"
  const NO_SERVICES := "No services defined"
  const NO_AVAILABILITY := "Availability not defined for any service"

  /** Some service of the workspace exists. */
  ghost predicate HasService(db: Db, wsId: int) {
    exists s :: s in db.services && s.workspaceId == wsId
  }

  /** Some service of the workspace has a weekly availability slot. */
  ghost predicate HasBookableService(db: Db, wsId: int) {
    exists s, a :: s in db.services && s.workspaceId == wsId && a in db.availabilities && a.serviceId == s.id
  }

  /** The guards of activate_workspace, in the order the source checks them. */
  function ActivationGate(db: Db, wsId: int, caller: User): (r: Response<WorkspaceStatus>)
    ensures r.NotFound? <==> forall w | w in db.workspaces :: w.id != wsId
    ensures r.NotFound? ==> r.detail == WORKSPACE_NOT_FOUND
    ensures r.Forbidden? <==>
      WorkspaceById(db.workspaces, wsId).Some? && (caller.role != Owner || caller.workspaceId != wsId)
    ensures r.Forbidden? ==> r.detail == NOT_AUTHORIZED
    ensures r == BadRequest(NO_INTEGRATIONS) <==>
      && WorkspaceById(db.workspaces, wsId).Some? && caller.role == Owner && caller.workspaceId == wsId
      && (WorkspaceById(db.workspaces, wsId).value.settings.None? ||
          WorkspaceById(db.workspaces, wsId).value.settings.value == map[])
    ensures r == BadRequest(NO_SERVICES) <==>
      && WorkspaceById(db.workspaces, wsId).Some? && caller.role == Owner && caller.workspaceId == wsId
      && ChannelConfigured(WorkspaceById(db.workspaces, wsId).value.settings)
      && !HasService(db, wsId)
    ensures r == BadRequest(NO_AVAILABILITY) <==>
      && WorkspaceById(db.workspaces, wsId).Some? && caller.role == Owner && caller.workspaceId == wsId
      && ChannelConfigured(WorkspaceById(db.workspaces, wsId).value.settings)
      && HasService(db, wsId) && !HasBookableService(db, wsId)
    ensures r.Ok? <==>
      && WorkspaceById(db.workspaces, wsId).Some? && caller.role == Owner && caller.workspaceId == wsId
      && ChannelConfigured(WorkspaceById(db.workspaces, wsId).value.settings)
      && HasBookableService(db, wsId)
    ensures r.Ok? ==> r.value == Active
    ensures !r.ServerError?
  {
    var services := WorkspaceServices(db.services, wsId);
    assert |services| == 0 <==> !HasService(db, wsId) by {
      if |services| > 0 { assert services[0] in services; }
    }
    assert AnyAvailable(db.availabilities, services) <==> HasBookableService(db, wsId) by {
      if HasBookableService(db, wsId) {
        var s, a :| s in db.services && s.workspaceId == wsId && a in db.availabilities && a.serviceId == s.id;
        assert s in services && ServiceHasAvailability(db.availabilities, s);
      }
    }
    match WorkspaceIndex(db.workspaces, wsId)
    case None => NotFound(WORKSPACE_NOT_FOUND)
    case Some(i) =>
      if caller.role != Owner || caller.workspaceId != wsId then Forbidden(NOT_AUTHORIZED)
      else if !ChannelConfigured(db.workspaces[i].settings) then BadRequest(NO_INTEGRATIONS)
      else if |services| == 0 then BadRequest(NO_SERVICES)
      else if !AnyAvailable(db.availabilities, services) then BadRequest(NO_AVAILABILITY)
      else Ok(Active)
  }

  /** `workspace.status = "active"` on the row the lookup found. */
  function SetActive(workspaces: seq<Workspace>, wsId: int): seq<Workspace>
    requires WorkspaceIndex(workspaces, wsId).Some?
  {
    var i := WorkspaceIndex(workspaces, wsId).value;
    ReplaceWorkspace(workspaces, wsId, workspaces[i].(status := Active))
  }

  /** activate_workspace: when every guard passes, the workspace (and only it)
      becomes active; a refused activation writes nothing. An already active
      workspace passes the same guards and is activated again. */
  function ActivateSpec(db: Db, wsId: int, caller: User): (r: Transition<WorkspaceStatus>)
    ensures r.queued == []
    ensures r.response == ActivationGate(db, wsId, caller)
    ensures !r.response.Ok? ==> r.db == db
    ensures r.response.Ok? ==>
      && r.db == db.(workspaces := r.db.workspaces)
      && |r.db.workspaces| == |db.workspaces|
      && WorkspaceById(r.db.workspaces, wsId) == Some(WorkspaceById(db.workspaces, wsId).value.(status := Active))
      && forall j | 0 <= j < |db.workspaces| && j != WorkspaceIndex(db.workspaces, wsId).value ::
           r.db.workspaces[j] == db.workspaces[j]
    ensures db.Valid() ==> r.db.Valid()
  {
    var gate := ActivationGate(db, wsId, caller);
    if gate.Ok? then
      assert db.Valid() ==> db.(workspaces := SetActive(db.workspaces, wsId)).Valid() by {
        if db.Valid() {
          var i := WorkspaceIndex(db.workspaces, wsId).value;
          ReplaceWorkspaceKeepsValid(db, wsId, db.workspaces[i].(status := Active));
        }
      }
      Transition(db.(workspaces := SetActive(db.workspaces, wsId)), gate, [])
    else
      Transition(db, gate, [])
  }

  /** The guards read only the workspace's settings and the service tables. */
  lemma GateFrame(db: Db, db': Db, wsId: int, caller: User)
    requires WorkspaceIndex(db'.workspaces, wsId) == WorkspaceIndex(db.workspaces, wsId)
    requires WorkspaceIndex(db.workspaces, wsId).Some? ==>
      db'.workspaces[WorkspaceIndex(db.workspaces, wsId).value].settings ==
      db.workspaces[WorkspaceIndex(db.workspaces, wsId).value].settings
    requires db'.services == db.services && db'.availabilities == db.availabilities
    ensures ActivationGate(db', wsId, caller) == ActivationGate(db, wsId, caller)
  {
  }

  /** Activation is idempotent: activating an activated workspace again succeeds
      and changes nothing. */
  lemma {:induction false} ActivateTwice(db: Db, wsId: int, caller: User)
    requires ActivateSpec(db, wsId, caller).response.Ok?
    ensures var once := ActivateSpec(db, wsId, caller);
            ActivateSpec(once.db, wsId, caller) == Transition(once.db, Ok(Active), [])
  {
    var once := ActivateSpec(db, wsId, caller);
    var i := WorkspaceIndex(db.workspaces, wsId).value;
    var ws1 := SetActive(db.workspaces, wsId);
    assert once.db == db.(workspaces := ws1);
    GateFrame(db, once.db, wsId, caller);
    var twice := ActivateSpec(once.db, wsId, caller);
    assert twice.response == Ok(Active);
    assert SetActive(ws1, wsId) == ws1 by {
      assert ws1[i].status == Active;
      forall j | 0 <= j < |ws1| ensures SetActive(ws1, wsId)[j] == ws1[j] { }
    }
    assert twice.db == once.db.(workspaces := SetActive(ws1, wsId));
  }

  /** activate_workspace on a store. */
  method ActivateWorkspace(store: Store, wsId: int, caller: User) returns (r: Response<WorkspaceStatus>)
    modifies store
    ensures Transition(store.Snapshot(), r, []) == ActivateSpec(old(store.Snapshot()), wsId, caller)
    ensures old(store.Valid()) ==> store.Valid()
  {
    var index := WorkspaceIndex(store.workspaces, wsId);
    if index.None? {
      return NotFound(WORKSPACE_NOT_FOUND);
    }
    var workspace := store.workspaces[index.value];
    if caller.role != Owner || caller.workspaceId != wsId {
      return Forbidden(NOT_AUTHORIZED);
    }
    if !ChannelConfigured(workspace.settings) {
      return BadRequest(NO_INTEGRATIONS);
    }
    var services := WorkspaceServices(store.services, wsId);
    if |services| == 0 {
      return BadRequest(NO_SERVICES);
    }
    if !AnyAvailable(store.availabilities, services) {
      return BadRequest(NO_AVAILABILITY);
    }
    store.workspaces := SetActive(store.workspaces, wsId);
    r := Ok(Active);
  }
}

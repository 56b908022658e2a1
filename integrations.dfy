/** Channel configuration (backend/app/routers/integrations.py): merging channel
    settings into the caller's workspace and logging a test message on a
    configured channel. */
module Integrations {
  import opened Common
  import opened Models
  import opened Database

  const WORKSPACE_NOT_FOUND := "Workspace not found"

  /** `current_settings = settings or {}; current_settings.update(channels)`:
      supplied channels take their new configuration, every other configured
      channel is kept. */
  function Merge(settings: Option<Settings>, channels: Settings): (r: Settings)
    ensures r.Keys == settings.GetOr(map[]).Keys + channels.Keys
    ensures forall k | k in channels :: r[k] == channels[k]
    ensures forall k | k in settings.GetOr(map[]) && k !in channels :: r[k] == settings.GetOr(map[])[k]
  {
    settings.GetOr(map[]) + channels
  }

  /** Merging the same channels twice gives what merging once gave. */
  lemma MergeIdempotent(settings: Option<Settings>, channels: Settings)
    ensures Merge(Some(Merge(settings, channels)), channels) == Merge(settings, channels)
  {
    var once := Merge(settings, channels);
    var twice := Merge(Some(once), channels);
    assert twice.Keys == once.Keys;
    forall k | k in twice ensures twice[k] == once[k] { }
  }

  /** update_integrations: the caller's workspace must exist; its settings become
      the merge, which is also returned. Nothing else is written. */
  function UpdateIntegrationsSpec(db: Db, caller: User, channels: Settings): (r: Transition<Settings>)
    ensures r.queued == []
    ensures r.response.Ok? || r.response == NotFound(WORKSPACE_NOT_FOUND)
    ensures r.response.NotFound? <==> forall w | w in db.workspaces :: w.id != caller.workspaceId
    ensures r.response.NotFound? ==> r.db == db
    ensures r.response.Ok? ==>
      var w := WorkspaceById(db.workspaces, caller.workspaceId).value;
      && r.response.value == Merge(w.settings, channels)
      && r.db == db.(workspaces := r.db.workspaces)
      && WorkspaceById(r.db.workspaces, caller.workspaceId) == Some(w.(settings := Some(Merge(w.settings, channels))))
      && |r.db.workspaces| == |db.workspaces|
      && forall j | 0 <= j < |db.workspaces| && j != WorkspaceIndex(db.workspaces, caller.workspaceId).value ::
           r.db.workspaces[j] == db.workspaces[j]
    ensures db.Valid() ==> r.db.Valid()
  {
    match WorkspaceIndex(db.workspaces, caller.workspaceId)
    case None => Transition(db, NotFound(WORKSPACE_NOT_FOUND), [])
    case Some(i) =>
      var w := db.workspaces[i];
      var merged := Merge(w.settings, channels);
      var w' := w.(settings := Some(merged));
      assert db.Valid() ==> db.(workspaces := ReplaceWorkspace(db.workspaces, caller.workspaceId, w')).Valid() by {
        if db.Valid() { ReplaceWorkspaceKeepsValid(db, caller.workspaceId, w'); }
      }
      Transition(db.(workspaces := ReplaceWorkspace(db.workspaces, caller.workspaceId, w')), Ok(merged), [])
  }

  /** Sending the same configuration twice leaves the settings as once did. */
  lemma {:induction false} UpdateIntegrationsTwice(db: Db, caller: User, channels: Settings)
    requires UpdateIntegrationsSpec(db, caller, channels).response.Ok?
    ensures var once := UpdateIntegrationsSpec(db, caller, channels);
            UpdateIntegrationsSpec(once.db, caller, channels) == once
  {
    var once := UpdateIntegrationsSpec(db, caller, channels);
    var i := WorkspaceIndex(db.workspaces, caller.workspaceId).value;
    var w := db.workspaces[i];
    MergeIdempotent(w.settings, channels);
    var w1 := once.db.workspaces[i];
    assert w1 == w.(settings := Some(Merge(w.settings, channels)));
    assert WorkspaceIndex(once.db.workspaces, caller.workspaceId) == Some(i);
    var w2 := w1.(settings := Some(Merge(w1.settings, channels)));
    assert w2 == w1;
    var ws2 := ReplaceWorkspace(once.db.workspaces, caller.workspaceId, w2);
    assert ws2 == once.db.workspaces by {
      forall j | 0 <= j < |ws2| ensures ws2[j] == once.db.workspaces[j] { }
    }
  }

  /** update_integrations on a store. */
  method UpdateIntegrations(store: Store, caller: User, channels: Settings) returns (r: Response<Settings>)
    modifies store
    ensures Transition(store.Snapshot(), r, []) == UpdateIntegrationsSpec(old(store.Snapshot()), caller, channels)
    ensures old(store.Valid()) ==> store.Valid()
  {
    var index := WorkspaceIndex(store.workspaces, caller.workspaceId);
    if index.None? {
      return NotFound(WORKSPACE_NOT_FOUND);
    }
    var workspace := store.workspaces[index.value];
    var current := workspace.settings.GetOr(map[]);
    current := current + channels;
    store.workspaces := ReplaceWorkspace(store.workspaces, caller.workspaceId, workspace.(settings := Some(current)));
    r := Ok(current);
  }

  const SUCCESS := "success"

  /** test_integration: a channel missing from the caller's workspace settings is
      refused; otherwise one "success" log for the channel is appended and
      nothing else changes. A caller whose workspace row is missing makes
      `workspace.settings` raise on None. */
  function TestIntegrationSpec(db: Db, caller: User, channel: string): (r: Transition<string>)
    ensures r.queued == []
    ensures r.response.ServerError? <==> forall w | w in db.workspaces :: w.id != caller.workspaceId
    ensures r.response.BadRequest? <==>
      WorkspaceById(db.workspaces, caller.workspaceId).Some? &&
      channel !in WorkspaceById(db.workspaces, caller.workspaceId).value.settings.GetOr(map[])
    ensures r.response.BadRequest? ==> r.response.detail == "Channel " + channel + " not configured"
    ensures !r.response.Ok? ==> r.db == db
    ensures r.response.Ok? ==>
      && r.response.value == "Test " + channel + " sent successfully"
      && r.db == db.(logs := r.db.logs, nextId := r.db.nextId)
      && |r.db.logs| == |db.logs| + 1
      && r.db.logs[..|db.logs|] == db.logs
      && var log := r.db.logs[|db.logs|];
         log.workspaceId == caller.workspaceId && log.integrationType == channel && log.status == SUCCESS
    ensures db.Valid() ==> r.db.Valid()
  {
    match WorkspaceById(db.workspaces, caller.workspaceId)
    case None => Transition(db, ServerError("'NoneType' object has no attribute 'settings'"), [])
    case Some(w) =>
      if channel !in w.settings.GetOr(map[]) then
        Transition(db, BadRequest("Channel " + channel + " not configured"), [])
      else
        var log := IntegrationLog(db.nextId, w.id, channel, SUCCESS, "Test message sent via " + channel);
        Transition(db.(logs := db.logs + [log], nextId := db.nextId + 1), Ok("Test " + channel + " sent successfully"), [])
  }

  /** test_integration on a store. */
  method TestIntegration(store: Store, caller: User, channel: string) returns (r: Response<string>)
    modifies store
    ensures Transition(store.Snapshot(), r, []) == TestIntegrationSpec(old(store.Snapshot()), caller, channel)
    ensures old(store.Valid()) ==> store.Valid()
  {
    var workspace := WorkspaceById(store.workspaces, caller.workspaceId);
    if workspace.None? {
      return ServerError("'NoneType' object has no attribute 'settings'");
    }
    var settings := workspace.value.settings.GetOr(map[]);
    if channel !in settings {
      return BadRequest("Channel " + channel + " not configured");
    }
    var id := store.NewId();
    store.logs := store.logs + [IntegrationLog(id, workspace.value.id, channel, SUCCESS, "Test message sent via " + channel)];
    r := Ok("Test " + channel + " sent successfully");
  }
}

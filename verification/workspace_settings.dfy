/**
 * The workspace-settings slice, as its tests fix it: one settings record per
 * workspace id, read from the database (snake_case row, integer stream flag,
 * JSON text columns), merged by partial updates and replaced on save.
 */
module WorkspaceSettings {
  import opened Common
  import opened JsValues

  datatype Settings = Settings(
    id: string,
    name: string,
    systemMessage: string,
    llmConnectionId: Option<string>,
    mcpToolIds: Option<JsValue>,
    streamEnabled: Option<bool>,
    defaultModel: Option<string>,
    toolPermissionConfig: Option<JsValue>)

  /** A row of the workspace settings table; `None` is SQL `NULL`. */
  datatype DbSettings = DbSettings(
    workspace_id: string,
    llm_connection_id: Option<string>,
    system_message: Option<string>,
    mcp_tool_ids: Option<string>,
    stream_enabled: Option<int>,
    default_model: Option<string>,
    tool_permission_config: Option<string>,
    created_at: int,
    updated_at: int)

  /** The integer stream flag: 1 is on, 0 is off, `NULL` is not set. */
  function StreamFlag(flag: Option<int>): (r: Option<bool>)
    ensures r.None? <==> flag.None?
    ensures flag == Some(1) ==> r == Some(true)
    ensures flag == Some(0) ==> r == Some(false)
  {
    if flag.Some? then Some(flag.value != 0) else None
  }

  /** A JSON text column: `NULL` and text that does not parse (`parse` gives `None`) are both `undefined`. */
  function JsonColumn(text: Option<string>, parse: string -> Option<JsValue>): (r: Option<JsValue>)
    ensures text.None? ==> r.None?
    ensures text.Some? ==> r == parse(text.value)
  {
    if text.Some? then parse(text.value) else None
  }

  /**
   * The row conversion of `fetchWorkspaceSettings`: the id is the row's
   * workspace id, the name is the one the caller passed, a `NULL` system
   * message is the empty text and every other `NULL` is `undefined`.
   */
  function FromDb(db: DbSettings, workspaceName: string, parse: string -> Option<JsValue>): (s: Settings)
    ensures s.id == db.workspace_id && s.name == workspaceName
    ensures db.system_message.Some? ==> s.systemMessage == db.system_message.value
    ensures db.system_message.None? ==> s.systemMessage == ""
    ensures s.llmConnectionId == db.llm_connection_id && s.defaultModel == db.default_model
    ensures s.streamEnabled == StreamFlag(db.stream_enabled)
    ensures s.mcpToolIds == JsonColumn(db.mcp_tool_ids, parse)
    ensures s.toolPermissionConfig == JsonColumn(db.tool_permission_config, parse)
  {
    Settings(
      db.workspace_id,
      workspaceName,
      if db.system_message.Some? then db.system_message.value else "",
      db.llm_connection_id,
      JsonColumn(db.mcp_tool_ids, parse),
      StreamFlag(db.stream_enabled),
      db.default_model,
      JsonColumn(db.tool_permission_config, parse))
  }

  /** A row whose JSON columns do not parse keeps every other field and has no tool ids or permission config. */
  lemma InvalidJsonGivesUndefined(db: DbSettings, workspaceName: string, parse: string -> Option<JsValue>)
    requires db.mcp_tool_ids.Some? && parse(db.mcp_tool_ids.value).None?
    requires db.tool_permission_config.Some? && parse(db.tool_permission_config.value).None?
    ensures FromDb(db, workspaceName, parse).mcpToolIds.None?
    ensures FromDb(db, workspaceName, parse).toolPermissionConfig.None?
    ensures FromDb(db, workspaceName, parse).id == db.workspace_id
  {
  }

  /** A row of `NULL`s converts to a record with only the id, the name and an empty system message. */
  lemma NullRowDefaults(id: string, workspaceName: string, parse: string -> Option<JsValue>, created: int, updated: int)
    ensures FromDb(DbSettings(id, None, None, None, None, None, None, created, updated), workspaceName, parse)
      == Settings(id, workspaceName, "", None, None, None, None, None)
  {
  }

  /** `Partial<WorkspaceSettings>`: `None` is a field the update does not give. */
  datatype SettingsPatch = SettingsPatch(
    id: Option<string>,
    name: Option<string>,
    systemMessage: Option<string>,
    llmConnectionId: Option<Option<string>>,
    mcpToolIds: Option<Option<JsValue>>,
    streamEnabled: Option<Option<bool>>,
    defaultModel: Option<Option<string>>,
    toolPermissionConfig: Option<Option<JsValue>>)

  /** `{ ...existing, ...patch }`: the given fields override, the others are kept. */
  function Merge(s: Settings, p: SettingsPatch): (r: Settings)
    ensures Overrides(p.id, s.id, r.id) && Overrides(p.name, s.name, r.name)
    ensures Overrides(p.systemMessage, s.systemMessage, r.systemMessage)
    ensures Overrides(p.llmConnectionId, s.llmConnectionId, r.llmConnectionId)
    ensures Overrides(p.mcpToolIds, s.mcpToolIds, r.mcpToolIds)
    ensures Overrides(p.streamEnabled, s.streamEnabled, r.streamEnabled)
    ensures Overrides(p.defaultModel, s.defaultModel, r.defaultModel)
    ensures Overrides(p.toolPermissionConfig, s.toolPermissionConfig, r.toolPermissionConfig)
    ensures p == SettingsPatch(None, None, None, None, None, None, None, None) ==> r == s
  {
    Settings(
      Pick(p.id, s.id), Pick(p.name, s.name), Pick(p.systemMessage, s.systemMessage),
      Pick(p.llmConnectionId, s.llmConnectionId), Pick(p.mcpToolIds, s.mcpToolIds),
      Pick(p.streamEnabled, s.streamEnabled), Pick(p.defaultModel, s.defaultModel),
      Pick(p.toolPermissionConfig, s.toolPermissionConfig))
  }

  /** Merging the same update twice is merging it once. */
  lemma MergeIdempotent(s: Settings, p: SettingsPatch)
    ensures Merge(Merge(s, p), p) == Merge(s, p)
  {
  }

  class WorkspaceSettingsSlice {
    var settingsByWorkspaceId: map<string, Settings>
    var loading: bool
    var error: Option<string>

    /** The initial state: no settings, not loading, no error. */
    constructor ()
      ensures settingsByWorkspaceId == map[] && !loading && error.None?
    {
      settingsByWorkspaceId := map[];
      loading := false;
      error := None;
    }

    /** `setWorkspaceSettings`: the record is stored under the id; every other workspace keeps its own. */
    method SetSettings(workspaceId: string, settings: Settings)
      modifies this
      ensures settingsByWorkspaceId == old(settingsByWorkspaceId)[workspaceId := settings]
      ensures loading == old(loading) && error == old(error)
    {
      settingsByWorkspaceId := settingsByWorkspaceId[workspaceId := settings];
    }

    /** `updateWorkspaceSettings`: a merge into an existing record; no record is created for an unknown id. */
    method UpdateSettings(workspaceId: string, patch: SettingsPatch)
      modifies this
      ensures workspaceId in old(settingsByWorkspaceId) ==>
        settingsByWorkspaceId == old(settingsByWorkspaceId)[workspaceId := Merge(old(settingsByWorkspaceId)[workspaceId], patch)]
      ensures workspaceId !in old(settingsByWorkspaceId) ==> settingsByWorkspaceId == old(settingsByWorkspaceId)
      ensures loading == old(loading) && error == old(error)
    {
      if workspaceId in settingsByWorkspaceId {
        settingsByWorkspaceId := settingsByWorkspaceId[workspaceId := Merge(settingsByWorkspaceId[workspaceId], patch)];
      }
    }

    /** `fetchWorkspaceSettings.pending`. */
    method FetchPending()
      modifies this
      ensures loading && error.None? && settingsByWorkspaceId == old(settingsByWorkspaceId)
    {
      loading := true;
      error := None;
    }

    /**
     * `fetchWorkspaceSettings.fulfilled`: the converted row is stored under the
     * requested workspace; a missing row (`None`) stores nothing.
     */
    method FetchFulfilled(workspaceId: string, workspaceName: string, row: Option<DbSettings>, parse: string -> Option<JsValue>)
      modifies this
      ensures !loading && error == old(error)
      ensures row.Some? ==> settingsByWorkspaceId == old(settingsByWorkspaceId)[workspaceId := FromDb(row.value, workspaceName, parse)]
      ensures row.None? ==> settingsByWorkspaceId == old(settingsByWorkspaceId)
    {
      loading := false;
      if row.Some? {
        settingsByWorkspaceId := settingsByWorkspaceId[workspaceId := FromDb(row.value, workspaceName, parse)];
      }
    }

    /** `fetchWorkspaceSettings.rejected`: the error's message, or the slice's fallback text when it has none. */
    method FetchRejected(message: Option<string>, fallback: string)
      modifies this
      ensures !loading && settingsByWorkspaceId == old(settingsByWorkspaceId)
      ensures message.Some? && message.value != "" ==> error == message
      ensures !(message.Some? && message.value != "") ==> error == Some(fallback)
    {
      loading := false;
      error := Some(if message.Some? && message.value != "" then message.value else fallback);
    }

    /** `saveWorkspaceSettings.fulfilled`: exactly the saved record is stored under the workspace. */
    method SaveFulfilled(workspaceId: string, settings: Settings)
      modifies this
      ensures settingsByWorkspaceId == old(settingsByWorkspaceId)[workspaceId := settings]
      ensures loading == old(loading) && error == old(error)
    {
      settingsByWorkspaceId := settingsByWorkspaceId[workspaceId := settings];
    }
  }

  /** Storing settings for one workspace leaves every other workspace's record (or its absence) as it was. */
  lemma OtherWorkspacesIndependent(m: map<string, Settings>, workspaceId: string, settings: Settings, other: string)
    requires other != workspaceId
    ensures other in m[workspaceId := settings] <==> other in m
    ensures other in m ==> m[workspaceId := settings][other] == m[other]
  {
  }
}

/**
 * The MCP server connections slice: the list of configured servers with
 * their connection status and tools, a loading flag and an error text. Each
 * thunk's backend call is an outcome given to the reducer; the reducers
 * replace the matching list entry, append, or filter.
 */
module McpConnections {
  import opened Common
  import opened JsValues
  import opened Lists
  import opened AppErrors

  /** A server connection as the front end holds it; `None` is `undefined`. */
  datatype Connection = Connection(
    id: string,
    name: string,
    url: string,
    kind: string,
    headers: Option<string>,
    runtimePath: Option<string>,
    status: Option<string>,
    tools: Option<JsValue>,
    errorMessage: Option<string>)

  /** A row of the connections table; `None` is SQL `NULL`. */
  datatype DbConnection = DbConnection(
    id: string,
    name: string,
    url: string,
    kind: string,
    headers: string,
    runtimePath: Option<string>,
    status: string,
    toolsJson: Option<string>,
    errorMessage: Option<string>)

  /** `s || undefined` for an optional text: the empty text becomes `undefined`. */
  function NonEmpty(s: Option<string>): (r: Option<string>)
    ensures r.Some? <==> s.Some? && s.value != ""
    ensures r.Some? ==> r == s
  {
    if s.Some? && s.value != "" then s else None
  }

  /**
   * `dbToFrontendMCPServerConnection`. `parse` is `JSON.parse`, `None` when it
   * throws; the tools are parsed only from a non-empty text.
   */
  function FromDb(db: DbConnection, parse: string -> Option<JsValue>): (c: Connection)
    ensures c.id == db.id && c.name == db.name && c.url == db.url && c.kind == db.kind
    ensures c.status == Some(db.status)
    ensures c.headers == NonEmpty(Some(db.headers))
    ensures c.runtimePath == NonEmpty(db.runtimePath) && c.errorMessage == NonEmpty(db.errorMessage)
    ensures db.toolsJson.None? || db.toolsJson == Some("") ==> c.tools.None?
    ensures db.toolsJson.Some? && db.toolsJson.value != "" ==> c.tools == parse(db.toolsJson.value)
  {
    var tools := if db.toolsJson.Some? && db.toolsJson.value != "" then parse(db.toolsJson.value) else None;
    Connection(db.id, db.name, db.url, db.kind, NonEmpty(Some(db.headers)), NonEmpty(db.runtimePath),
      Some(db.status), tools, NonEmpty(db.errorMessage))
  }

  /** Unparsable tool text leaves the tools `undefined`; the rest of the row converts as usual. */
  lemma InvalidToolsJson(db: DbConnection, parse: string -> Option<JsValue>)
    requires db.toolsJson.Some? && parse(db.toolsJson.value).None?
    ensures FromDb(db, parse).tools.None? && FromDb(db, parse).id == db.id
  {
  }

  /** `fetchMCPConnections` / `refreshMCPConnections`: every row converted, in order. */
  function FromDbAll(rows: seq<DbConnection>, parse: string -> Option<JsValue>): (r: seq<Connection>)
    ensures |r| == |rows| && forall k :: 0 <= k < |rows| ==> r[k] == FromDb(rows[k], parse)
  {
    seq(|rows|, k requires 0 <= k < |rows| => FromDb(rows[k], parse))
  }

  /** `addMCPConnection`'s result: the given fields, a time-based id, status "connecting", no tools, no error. */
  function Added(input: Connection, now: nat): (c: Connection)
    ensures c.id == NatToString(now) && c.status == Some("connecting") && c.tools.None? && c.errorMessage.None?
    ensures c.name == input.name && c.url == input.url && c.kind == input.kind
    ensures c.headers == input.headers && c.runtimePath == input.runtimePath
  {
    input.(id := NatToString(now), status := Some("connecting"), tools := None, errorMessage := None)
  }

  /** The row `addMCPConnection` writes: headers default to '', a missing runtime path to `NULL`. */
  function CreatedRow(input: Connection, now: nat): (db: DbConnection)
    ensures db.id == NatToString(now) && db.status == "connecting"
  {
    DbConnection(NatToString(now), input.name, input.url, input.kind,
      if input.headers.Some? then input.headers.value else "",
      NonEmpty(input.runtimePath), "connecting", None, None)
  }

  /**
   * Reloading a newly added connection from its row gives the connection the
   * slice appended, unless a header text or runtime path was given as '',
   * which reloads as `undefined`.
   */
  lemma ReloadAdded(input: Connection, now: nat, parse: string -> Option<JsValue>)
    requires input.headers != Some("") && input.runtimePath != Some("")
    ensures FromDb(CreatedRow(input, now), parse) == Added(input, now)
  {
  }

  /** A connection added with empty header text comes back with no headers. */
  lemma ReloadDropsEmptyHeaders(input: Connection, now: nat, parse: string -> Option<JsValue>)
    requires input.headers == Some("")
    ensures Added(input, now).headers == Some("") && FromDb(CreatedRow(input, now), parse).headers == None
  {
  }

  /**
   * What a connect attempt came to: the server listed its tools and the
   * "connected" status was saved; the listing threw; or the listing gave
   * tools and the save of the "connected" status threw after them.
   */
  datatype ConnectOutcome =
    | Listed(tools: JsValue)
    | ListingThrew(thrown: Thrown)
    | SavingThrew(tools: JsValue, thrown: Thrown)

  /** The `connectMCPConnection` result: status, tools and error text. */
  datatype ConnectResult = ConnectResult(id: string, status: string, tools: Option<JsValue>, errorMessage: Option<string>)

  const ConnectFailedText: string := "Không thể kết nối đến MCP server"

  /**
   * The error text the catch records: an `Error`'s message, even an empty
   * one; for any other value its `toString()` text, or the default text when
   * the value is `null` or `undefined` (no text) or its text is empty.
   */
  function ConnectErrorText(thrown: Thrown): (r: string)
    ensures thrown.ErrorObject? ==> r == ThrownText(thrown)
    ensures thrown.OtherValue? ==> r != ""
    ensures thrown.OtherValue? && !thrown.value.Null? && !thrown.value.Undefined? && ThrownText(thrown) != "" ==>
      r == ThrownText(thrown)
    ensures thrown.OtherValue? && (thrown.value.Null? || thrown.value.Undefined? || ThrownText(thrown) == "") ==>
      r == ConnectFailedText
  {
    match thrown
    case ErrorObject(message) => message
    case OtherValue(v) =>
      if v.Null? || v.Undefined? || ToJsString(v) == "" then ConnectFailedText else ToJsString(v)
  }

  /**
   * A listing that was saved connects with its tools and no error. Anything
   * thrown disconnects with the thrown value's text; the tools stay as they
   * were when it was thrown: none when the listing threw, the listed ones
   * when the status save threw after them.
   */
  function ConnectResultOf(id: string, outcome: ConnectOutcome): (r: ConnectResult)
    ensures r.id == id
    ensures r.status == "connected" <==> outcome.Listed?
    ensures r.status == "connected" || r.status == "disconnected"
    ensures outcome.Listed? ==> r.tools == Some(outcome.tools) && r.errorMessage.None?
    ensures outcome.ListingThrew? ==> r.tools.None? && r.errorMessage == Some(ConnectErrorText(outcome.thrown))
    ensures outcome.SavingThrew? ==> r.tools == Some(outcome.tools) && r.errorMessage == Some(ConnectErrorText(outcome.thrown))
    ensures r.errorMessage.Some? <==> !outcome.Listed?
  {
    match outcome
    case Listed(tools) => ConnectResult(id, "connected", Some(tools), None)
    case ListingThrew(thrown) => ConnectResult(id, "disconnected", None, Some(ConnectErrorText(thrown)))
    case SavingThrew(tools, thrown) => ConnectResult(id, "disconnected", Some(tools), Some(ConnectErrorText(thrown)))
  }

  /** `Partial<MCPServerConnection>`: `None` is a key that is absent; `Some(None)` a key set to `undefined`. */
  datatype Patch = Patch(
    id: Option<string>,
    name: Option<string>,
    url: Option<string>,
    kind: Option<string>,
    headers: Option<Option<string>>,
    runtimePath: Option<Option<string>>,
    status: Option<Option<string>>,
    tools: Option<Option<JsValue>>,
    errorMessage: Option<Option<string>>)

  /** `{ ...conn, ...patch }`: every key the patch holds overrides the connection's. */
  function ApplyPatch(c: Connection, p: Patch): (r: Connection)
    ensures Overrides(p.id, c.id, r.id) && Overrides(p.name, c.name, r.name)
    ensures Overrides(p.url, c.url, r.url) && Overrides(p.kind, c.kind, r.kind)
    ensures Overrides(p.headers, c.headers, r.headers) && Overrides(p.runtimePath, c.runtimePath, r.runtimePath)
    ensures Overrides(p.status, c.status, r.status) && Overrides(p.tools, c.tools, r.tools)
    ensures Overrides(p.errorMessage, c.errorMessage, r.errorMessage)
  {
    Connection(
      Pick(p.id, c.id), Pick(p.name, c.name), Pick(p.url, c.url), Pick(p.kind, c.kind),
      Pick(p.headers, c.headers), Pick(p.runtimePath, c.runtimePath), Pick(p.status, c.status),
      Pick(p.tools, c.tools), Pick(p.errorMessage, c.errorMessage))
  }

  const EmptyPatch: Patch := Patch(None, None, None, None, None, None, None, None, None)

  /** An empty patch changes nothing. */
  lemma EmptyPatchIsIdentity(c: Connection)
    ensures ApplyPatch(c, EmptyPatch) == c
  {
  }

  /** Applying the same patch twice is applying it once. */
  lemma PatchIdempotent(c: Connection, p: Patch)
    ensures ApplyPatch(ApplyPatch(c, p), p) == ApplyPatch(c, p)
  {
  }

  /** `needsReconnect`: a truthy url or type, or headers / runtime path present and not `undefined`. */
  predicate NeedsReconnect(p: Patch)
  {
    (p.url.Some? && p.url.value != "") || (p.kind.Some? && p.kind.value != "")
    || (p.headers.Some? && p.headers.value.Some?) || (p.runtimePath.Some? && p.runtimePath.value.Some?)
  }

  /** The updates `updateMCPConnection` returns: the patch, forced to "connecting" when it needs a reconnect. */
  function UpdatesOf(p: Patch): (u: Patch)
    ensures NeedsReconnect(p) ==> u == p.(status := Some(Some("connecting")))
    ensures !NeedsReconnect(p) ==> u == p
  {
    if NeedsReconnect(p) then p.(status := Some(Some("connecting"))) else p
  }

  /** A rename alone keeps the status; a new url forces "connecting" whatever status the patch carried. */
  lemma UpdateStatusRule(c: Connection, p: Patch)
    ensures p.url.Some? && p.url.value != "" ==> ApplyPatch(c, UpdatesOf(p)).status == Some("connecting")
    ensures p.(name := None) == EmptyPatch ==> ApplyPatch(c, UpdatesOf(p)) == c.(name := if p.name.Some? then p.name.value else c.name)
    ensures p.headers == Some(None) && !NeedsReconnect(p.(headers := None)) ==> UpdatesOf(p) == p
  {
  }

  /** `conn => conn.id === id`. */
  function HasId(id: string): Connection -> bool
  {
    (c: Connection) => c.id == id
  }

  /** `conn => conn.id !== id`. */
  function LacksId(id: string): Connection -> bool
  {
    (c: Connection) => c.id != id
  }

  const FetchFailedText: string := "Failed to fetch MCP connections"
  const RefreshFailedText: string := "Failed to refresh MCP connections"
  const ConnectRejectedText: string := "Failed to connect"

  /** `action.error.message || fallback`. */
  function MessageOr(message: Option<string>, fallback: string): (r: string)
    ensures message.Some? && message.value != "" ==> r == message.value
    ensures message.None? || message == Some("") ==> r == fallback
  {
    if message.Some? && message.value != "" then message.value else fallback
  }

  /** The slice state. */
  class McpConnectionsSlice {
    var connections: seq<Connection>
    var loading: bool
    var error: Option<string>

    /** The initial state: no connection, not loading, no error. */
    constructor ()
      ensures connections == [] && !loading && error.None?
    {
      connections := [];
      loading := false;
      error := None;
    }

    /** `setMCPConnections`. */
    method SetConnections(list: seq<Connection>)
      modifies this
      ensures connections == list && loading == old(loading) && error == old(error)
    {
      connections := list;
    }

    /** `fetchMCPConnections.pending` and `refreshMCPConnections.pending`. */
    method LoadPending()
      modifies this
      ensures loading && error.None? && connections == old(connections)
    {
      loading := true;
      error := None;
    }

    /** `fetchMCPConnections.fulfilled` and `refreshMCPConnections.fulfilled`: the list is replaced. */
    method LoadFulfilled(rows: seq<DbConnection>, parse: string -> Option<JsValue>)
      modifies this
      ensures !loading && error == old(error) && connections == FromDbAll(rows, parse)
    {
      loading := false;
      connections := FromDbAll(rows, parse);
    }

    /** `fetchMCPConnections.rejected` (`refresh` false) and `refreshMCPConnections.rejected` (`refresh` true). */
    method LoadRejected(refresh: bool, message: Option<string>)
      modifies this
      ensures !loading && connections == old(connections)
      ensures error == Some(MessageOr(message, if refresh then RefreshFailedText else FetchFailedText))
    {
      loading := false;
      error := Some(MessageOr(message, if refresh then RefreshFailedText else FetchFailedText));
    }

    /** `addMCPConnection.fulfilled`: exactly one connection appended. */
    method AddFulfilled(input: Connection, now: nat)
      modifies this
      ensures connections == old(connections) + [Added(input, now)]
      ensures loading == old(loading) && error == old(error)
    {
      connections := connections + [Added(input, now)];
    }

    /** `connectMCPConnection.pending`: the first connection with that id becomes "connecting". */
    method ConnectPending(id: string)
      modifies this
      ensures connections == ReplaceAt(old(connections), FindFirst(old(connections), HasId(id)), (c: Connection) => c.(status := Some("connecting")))
      ensures loading == old(loading) && error == old(error)
    {
      var index := FindFirst(connections, HasId(id));
      if index.Some? {
        connections := connections[index.value := connections[index.value].(status := Some("connecting"))];
      }
    }

    /** `connectMCPConnection.fulfilled`: status, tools and error text of the match, nothing else. */
    method ConnectFulfilled(id: string, outcome: ConnectOutcome)
      modifies this
      ensures var r := ConnectResultOf(id, outcome);
        connections == ReplaceAt(old(connections), FindFirst(old(connections), HasId(id)),
          (c: Connection) => c.(status := Some(r.status), tools := r.tools, errorMessage := r.errorMessage))
      ensures loading == old(loading) && error == old(error)
    {
      var r := ConnectResultOf(id, outcome);
      var index := FindFirst(connections, HasId(r.id));
      if index.Some? {
        var c := connections[index.value];
        connections := connections[index.value := c.(status := Some(r.status), tools := r.tools, errorMessage := r.errorMessage)];
      }
    }

    /** `connectMCPConnection.rejected`: the match is "disconnected" with the error text. */
    method ConnectRejected(id: string, message: Option<string>)
      modifies this
      ensures connections == ReplaceAt(old(connections), FindFirst(old(connections), HasId(id)),
        (c: Connection) => c.(status := Some("disconnected"), errorMessage := Some(MessageOr(message, ConnectRejectedText))))
      ensures loading == old(loading) && error == old(error)
    {
      var index := FindFirst(connections, HasId(id));
      if index.Some? {
        var c := connections[index.value];
        connections := connections[index.value := c.(status := Some("disconnected"), errorMessage := Some(MessageOr(message, ConnectRejectedText)))];
      }
    }

    /** `updateMCPConnection.fulfilled`: the updates are spread over the match. */
    method UpdateFulfilled(id: string, patch: Patch)
      modifies this
      ensures connections == ReplaceAt(old(connections), FindFirst(old(connections), HasId(id)), (c: Connection) => ApplyPatch(c, UpdatesOf(patch)))
      ensures loading == old(loading) && error == old(error)
    {
      var index := FindFirst(connections, HasId(id));
      if index.Some? {
        connections := connections[index.value := ApplyPatch(connections[index.value], UpdatesOf(patch))];
      }
    }

    /** `disconnectMCPConnection.fulfilled`: "disconnected", with tools and error cleared. */
    method DisconnectFulfilled(id: string)
      modifies this
      ensures connections == ReplaceAt(old(connections), FindFirst(old(connections), HasId(id)),
        (c: Connection) => c.(status := Some("disconnected"), tools := None, errorMessage := None))
      ensures loading == old(loading) && error == old(error)
    {
      var index := FindFirst(connections, HasId(id));
      if index.Some? {
        var c := connections[index.value];
        connections := connections[index.value := c.(status := Some("disconnected"), tools := None, errorMessage := None)];
      }
    }

    /** `removeMCPConnection.fulfilled`: every connection with that id goes. */
    method RemoveFulfilled(id: string)
      modifies this
      ensures connections == Filter(old(connections), LacksId(id))
      ensures loading == old(loading) && error == old(error)
    {
      connections := Filter(connections, LacksId(id));
    }
  }

  /** An id that is not in the list leaves every per-connection reducer without effect. */
  lemma UnknownIdChangesNothing(list: seq<Connection>, id: string, f: Connection -> Connection)
    requires forall k :: 0 <= k < |list| ==> list[k].id != id
    ensures ReplaceAt(list, FindFirst(list, HasId(id)), f) == list
    ensures Filter(list, LacksId(id)) == list
  {
    FilterAll(list, LacksId(id));
  }

  /** When ids are unique, a per-connection reducer changes only the connection with that id. */
  lemma OnlyMatchChanges(list: seq<Connection>, id: string, f: Connection -> Connection, k: nat)
    requires k < |list|
    ensures list[k].id != id ==> ReplaceAt(list, FindFirst(list, HasId(id)), f)[k] == list[k]
    ensures (forall a, b :: 0 <= a < b < |list| ==> list[a].id != list[b].id) && list[k].id == id ==>
      ReplaceAt(list, FindFirst(list, HasId(id)), f)[k] == f(list[k])
  {
    if list[k].id != id {
      ReplaceFirstOnlyTouchesMatch(list, HasId(id), f, k);
    }
  }

  /** A connect whose listing threw leaves the connection "disconnected" with no tools and the thrown text. */
  lemma FailedConnectDisconnects(c: Connection, thrown: Thrown)
    ensures var r := ConnectResultOf(c.id, ListingThrew(thrown));
      var d := c.(status := Some(r.status), tools := r.tools, errorMessage := r.errorMessage);
      d.status == Some("disconnected") && d.tools.None? && d.errorMessage == Some(ConnectErrorText(thrown))
      && d.id == c.id && d.name == c.name && d.url == c.url && d.headers == c.headers
  {
  }

  /**
   * A connect whose status save threw after the listing leaves the connection
   * "disconnected" and yet holding the listed tools, beside the thrown text.
   */
  lemma SaveFailureKeepsTools(c: Connection, tools: JsValue, thrown: Thrown)
    ensures var r := ConnectResultOf(c.id, SavingThrew(tools, thrown));
      var d := c.(status := Some(r.status), tools := r.tools, errorMessage := r.errorMessage);
      d.status == Some("disconnected") && d.tools == Some(tools) && d.errorMessage == Some(ConnectErrorText(thrown))
      && d.id == c.id && d.name == c.name && d.url == c.url && d.headers == c.headers
  {
  }
}

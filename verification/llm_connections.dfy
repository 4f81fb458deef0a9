/**
 * The LLM connections slice, as its tests fix it: a list of provider
 * connections read from the database (snake_case rows converted to the front
 * end's fields), a loading flag and an error text.
 */
module LlmConnections {
  import opened Common
  import opened JsValues
  import opened Lists

  datatype LlmConnection = LlmConnection(
    id: string,
    name: string,
    baseUrl: string,
    provider: string,
    apiKey: string,
    models: Option<JsValue>,
    defaultModel: Option<string>,
    enabled: bool)

  /** A row of the connections table; `None` is SQL `NULL`. */
  datatype DbLlmConnection = DbLlmConnection(
    id: string,
    name: string,
    base_url: string,
    provider: string,
    api_key: string,
    models_json: Option<string>,
    default_model: Option<string>,
    enabled: bool)

  /**
   * The row conversion: a provider outside `providers` becomes "openai"; the
   * models are `JSON.parse` of `models_json` (`parse`, `None` when it throws),
   * and `undefined` for `NULL`.
   */
  function FromDb(db: DbLlmConnection, providers: set<string>, parse: string -> Option<JsValue>): (c: LlmConnection)
    ensures c.id == db.id && c.name == db.name && c.baseUrl == db.base_url && c.apiKey == db.api_key
    ensures c.enabled == db.enabled && c.defaultModel == db.default_model
    ensures db.provider in providers ==> c.provider == db.provider
    ensures db.provider !in providers ==> c.provider == "openai"
    ensures db.models_json.None? ==> c.models.None?
    ensures db.models_json.Some? ==> c.models == parse(db.models_json.value)
  {
    LlmConnection(db.id, db.name, db.base_url, if db.provider in providers then db.provider else "openai",
      db.api_key, if db.models_json.Some? then parse(db.models_json.value) else None, db.default_model, db.enabled)
  }

  /** The provider of a converted row is always one of the known providers. */
  lemma ProviderIsKnown(db: DbLlmConnection, providers: set<string>, parse: string -> Option<JsValue>)
    requires "openai" in providers
    ensures FromDb(db, providers, parse).provider in providers
  {
  }

  /** The conversion of a list of rows, one connection per row, in order. */
  function FromDbAll(rows: seq<DbLlmConnection>, providers: set<string>, parse: string -> Option<JsValue>): (r: seq<LlmConnection>)
    ensures |r| == |rows| && forall k :: 0 <= k < |rows| ==> r[k] == FromDb(rows[k], providers, parse)
  {
    seq(|rows|, k requires 0 <= k < |rows| => FromDb(rows[k], providers, parse))
  }

  /** `Partial<LLMConnection>`: `None` is a field the update does not give. */
  datatype LlmPatch = LlmPatch(
    name: Option<string>,
    baseUrl: Option<string>,
    provider: Option<string>,
    apiKey: Option<string>,
    models: Option<Option<JsValue>>,
    defaultModel: Option<Option<string>>,
    enabled: Option<bool>)

  /** A field after an update: the given value when there is one, the old value otherwise. */
  predicate Updated<T(==)>(given: Option<T>, before: T, after: T)
  {
    if given.Some? then after == given.value else after == before
  }

  /** The given fields override, the others are kept; the id never changes. */
  function Merge(c: LlmConnection, p: LlmPatch): (r: LlmConnection)
    ensures r.id == c.id
    ensures Updated(p.name, c.name, r.name) && Updated(p.baseUrl, c.baseUrl, r.baseUrl)
    ensures Updated(p.provider, c.provider, r.provider) && Updated(p.apiKey, c.apiKey, r.apiKey)
    ensures Updated(p.models, c.models, r.models) && Updated(p.defaultModel, c.defaultModel, r.defaultModel)
    ensures Updated(p.enabled, c.enabled, r.enabled)
  {
    LlmConnection(
      c.id,
      if p.name.Some? then p.name.value else c.name,
      if p.baseUrl.Some? then p.baseUrl.value else c.baseUrl,
      if p.provider.Some? then p.provider.value else c.provider,
      if p.apiKey.Some? then p.apiKey.value else c.apiKey,
      if p.models.Some? then p.models.value else c.models,
      if p.defaultModel.Some? then p.defaultModel.value else c.defaultModel,
      if p.enabled.Some? then p.enabled.value else c.enabled)
  }

  /** Merging the same update twice is merging it once. */
  lemma MergeIdempotent(c: LlmConnection, p: LlmPatch)
    ensures Merge(Merge(c, p), p) == Merge(c, p)
  {
  }

  /** Renaming and disabling leaves the url, key and provider as they were. */
  lemma RenameAndDisable(c: LlmConnection, name: string)
    ensures var r := Merge(c, LlmPatch(Some(name), None, None, None, None, None, Some(false)));
      r.name == name && !r.enabled && r.baseUrl == c.baseUrl && r.apiKey == c.apiKey && r.provider == c.provider
  {
  }

  function HasId(id: string): LlmConnection -> bool
  {
    (c: LlmConnection) => c.id == id
  }

  function LacksId(id: string): LlmConnection -> bool
  {
    (c: LlmConnection) => c.id != id
  }

  class LlmConnectionsSlice {
    var llmConnections: seq<LlmConnection>
    var loading: bool
    var error: Option<string>

    /** The initial state: an empty list, not loading, no error. */
    constructor ()
      ensures llmConnections == [] && !loading && error.None?
    {
      llmConnections := [];
      loading := false;
      error := None;
    }

    /** `setLLMConnections`. */
    method SetConnections(list: seq<LlmConnection>)
      modifies this
      ensures llmConnections == list && loading == old(loading) && error == old(error)
    {
      llmConnections := list;
    }

    /** `fetchLLMConnections.pending` / `refreshLLMConnections.pending`. */
    method LoadPending()
      modifies this
      ensures loading && error.None? && llmConnections == old(llmConnections)
    {
      loading := true;
      error := None;
    }

    /** `fetchLLMConnections.fulfilled` / `refreshLLMConnections.fulfilled`. */
    method LoadFulfilled(rows: seq<DbLlmConnection>, providers: set<string>, parse: string -> Option<JsValue>)
      modifies this
      ensures !loading && error == old(error)
      ensures llmConnections == FromDbAll(rows, providers, parse)
    {
      loading := false;
      llmConnections := FromDbAll(rows, providers, parse);
    }

    /** `fetchLLMConnections.rejected`: the error's message, or the slice's fallback text when it has none. */
    method LoadRejected(message: Option<string>, fallback: string)
      modifies this
      ensures !loading && llmConnections == old(llmConnections)
      ensures message.Some? && message.value != "" ==> error == message
      ensures !(message.Some? && message.value != "") ==> error == Some(fallback)
    {
      loading := false;
      error := Some(if message.Some? && message.value != "" then message.value else fallback);
    }

    /** `addLLMConnection.fulfilled`: the given connection, with the id the thunk chose, appended. */
    method AddFulfilled(input: LlmConnection, id: string)
      modifies this
      ensures llmConnections == old(llmConnections) + [input.(id := id)]
      ensures loading == old(loading) && error == old(error)
    {
      llmConnections := llmConnections + [input.(id := id)];
    }

    /** `updateLLMConnection.fulfilled`: the connection with that id gets the given fields. */
    method UpdateFulfilled(id: string, patch: LlmPatch)
      modifies this
      ensures llmConnections == ReplaceAt(old(llmConnections), FindFirst(old(llmConnections), HasId(id)), (c: LlmConnection) => Merge(c, patch))
      ensures loading == old(loading) && error == old(error)
    {
      var index := FindFirst(llmConnections, HasId(id));
      if index.Some? {
        llmConnections := llmConnections[index.value := Merge(llmConnections[index.value], patch)];
      }
    }

    /** `removeLLMConnection.fulfilled`. */
    method RemoveFulfilled(id: string)
      modifies this
      ensures llmConnections == Filter(old(llmConnections), LacksId(id))
      ensures loading == old(loading) && error == old(error)
    {
      llmConnections := Filter(llmConnections, LacksId(id));
    }
  }

  /** An update for an unknown id changes nothing, and removing it removes nothing. */
  lemma UnknownIdChangesNothing(list: seq<LlmConnection>, id: string, patch: LlmPatch)
    requires forall k :: 0 <= k < |list| ==> list[k].id != id
    ensures ReplaceAt(list, FindFirst(list, HasId(id)), (c: LlmConnection) => Merge(c, patch)) == list
    ensures Filter(list, LacksId(id)) == list
  {
    FilterAll(list, LacksId(id));
  }

  /** Removing an id keeps every other connection, in order, and drops every connection with that id. */
  lemma RemoveKeepsOthers(list: seq<LlmConnection>, id: string, i: nat, j: nat)
    requires i < j < |list| && list[i].id != id && list[j].id != id
    ensures forall k :: 0 <= k < |Filter(list, LacksId(id))| ==> Filter(list, LacksId(id))[k].id != id
    ensures var kept := Filter(list, LacksId(id));
      exists a, b :: 0 <= a < b < |kept| && kept[a] == list[i] && kept[b] == list[j]
  {
    FilterKeepsOrder(list, LacksId(id), i, j);
  }
}

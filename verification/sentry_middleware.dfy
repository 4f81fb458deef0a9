/**
 * The Redux middleware that reports actions to Sentry: noisy or sensitive
 * action types pass straight through; every other action leaves a
 * breadcrumb whose level says whether it is an error, a critical action or
 * routine, with its payload redacted; critical actions tag the scope and
 * error actions with a payload are captured as events. The action always
 * reaches the next middleware, whose result is returned.
 */
module SentryMiddleware {
  import opened Common
  import opened JsValues
  import opened JsObjects
  import Logger

  const IgnoredActions: seq<string> := [
    "messages/appendToMessage", "messages/appendToThinking",
    "ui/setLoading", "ui/setTheme",
    "llmConnections/setApiKey"]

  const ErrorActions: seq<string> := [
    "messages/setStreamingError", "notification/showError",
    "llmConnections/testConnectionFailure", "mcpConnections/connectionError"]

  const CriticalActions: seq<string> := [
    "messages/sendMessage", "chats/createChat", "workspaces/createWorkspace",
    "llmConnections/createConnection", "mcpConnections/createConnection"]

  const SensitiveFields: seq<string> := ["apiKey", "api_key", "password", "token", "secret", "authorization"]

  /** `list.some((s) => actionType.includes(s))`. */
  predicate MatchesAny(actionType: string, list: seq<string>)
  {
    exists k :: 0 <= k < |list| && Contains(actionType, list[k])
  }

  /**
   * What `sanitizePayload` returns: a falsy or non-object payload as it is;
   * otherwise a copy (arrays become index-keyed objects) with every
   * sensitive field redacted.
   */
  function SanitizedPayload(payload: JsValue): (r: JsValue)
    ensures !Truthy(payload) || !IsObjectLike(payload) ==> r == payload
    ensures Truthy(payload) && IsObjectLike(payload) ==> r == Obj(Redact(Spread(payload), SensitiveFields))
  {
    if !Truthy(payload) || !IsObjectLike(payload) then payload
    else Obj(Redact(Spread(payload), SensitiveFields))
  }

  /** `sanitizePayload`: the copy, then one assignment per sensitive field present. */
  method SanitizePayload(payload: JsValue) returns (r: JsValue)
    ensures r == SanitizedPayload(payload)
  {
    if !Truthy(payload) || !IsObjectLike(payload) {
      return payload;
    }
    var fields := RedactCopy(Spread(payload), SensitiveFields);
    r := Obj(fields);
  }

  /** A sanitized payload hides every sensitive field it has, `authorization` included, and keeps the rest. */
  lemma SanitizedPayloadFields(fields: Fields, key: string)
    ensures key in SensitiveFields && HasKey(fields, key) ==> Lookup(SanitizedPayload(Obj(fields)).fields, key) == Some(Str(Redacted))
    ensures key !in SensitiveFields ==> Lookup(SanitizedPayload(Obj(fields)).fields, key) == Lookup(fields, key)
  {
    if key in SensitiveFields && HasKey(fields, key) {
      RedactLookup(fields, SensitiveFields, key);
    }
    if key !in SensitiveFields {
      RedactLookupOther(fields, SensitiveFields, key);
    }
  }

  /** The middleware redacts `authorization`, which the logger's `sanitize` lets through. */
  lemma AuthorizationOnlyHere()
    ensures var payload := Obj([("authorization", Str("Bearer x"))]);
      SanitizedPayload(payload) == Obj([("authorization", Str(Redacted))])
      && Logger.Sanitized(payload) == payload
  {
    assert "authorization" in SensitiveFields;
    assert "authorization" !in Logger.SensitiveKeys;
  }

  datatype BreadcrumbLevel = ErrorLevel | InfoLevel | DebugLevel

  /** The breadcrumb level: error actions first, then critical ones, then everything else. */
  function LevelFor(actionType: string): (r: BreadcrumbLevel)
    ensures r == ErrorLevel <==> MatchesAny(actionType, ErrorActions)
    ensures r == InfoLevel <==> !MatchesAny(actionType, ErrorActions) && MatchesAny(actionType, CriticalActions)
  {
    if MatchesAny(actionType, ErrorActions) then ErrorLevel
    else if MatchesAny(actionType, CriticalActions) then InfoLevel
    else DebugLevel
  }

  datatype Breadcrumb = Breadcrumb(category: string, message: string, level: BreadcrumbLevel, payload: JsValue, timestamp: nat)

  datatype Capture = Capture(message: string, payload: JsValue)

  /**
   * What one action makes the middleware do, and what it returns;
   * `slowAction` is the message of the warning breadcrumb for a slow action.
   */
  datatype Report = Report(breadcrumb: Option<Breadcrumb>, tag: Option<string>, captured: Option<Capture>,
                           slowAction: Option<string>, result: JsValue)

  /** An action is slow when `next` took more than 100 ms. */
  const SlowThresholdMs: int := 100

  /**
   * The middleware for one action. `nextResult` is what `next(action)`
   * returns, `durationMs` how long that call took and `now` is `Date.now()`.
   */
  method Handle(actionType: string, payload: JsValue, now: nat, nextResult: JsValue, durationMs: int) returns (report: Report)
    ensures report.result == nextResult
    ensures MatchesAny(actionType, IgnoredActions) ==> report == Report(None, None, None, None, nextResult)
    ensures !MatchesAny(actionType, IgnoredActions) ==>
      && report.breadcrumb == Some(Breadcrumb("redux.action", actionType, LevelFor(actionType), SanitizedPayload(payload), now))
      && (report.tag.Some? <==> MatchesAny(actionType, CriticalActions))
      && (report.tag.Some? ==> report.tag.value == actionType)
      && (report.captured.Some? <==> MatchesAny(actionType, ErrorActions) && Truthy(payload))
      && (report.captured.Some? ==> report.captured.value == Capture("Redux Error: " + actionType, SanitizedPayload(payload)))
      && (report.slowAction.Some? <==> durationMs > SlowThresholdMs)
      && (report.slowAction.Some? ==> report.slowAction.value == "Slow action: " + actionType)
  {
    if MatchesAny(actionType, IgnoredActions) {
      return Report(None, None, None, None, nextResult);
    }
    var isError := MatchesAny(actionType, ErrorActions);
    var isCritical := MatchesAny(actionType, CriticalActions);
    var sanitized := SanitizePayload(payload);
    var crumb := Breadcrumb("redux.action", actionType,
      if isError then ErrorLevel else if isCritical then InfoLevel else DebugLevel, sanitized, now);
    var tag := if isCritical then Some(actionType) else None;
    var captured: Option<Capture> := None;
    if isError && Truthy(payload) {
      var again := SanitizePayload(payload);
      captured := Some(Capture("Redux Error: " + actionType, again));
    }
    var slow := if durationMs > SlowThresholdMs then Some("Slow action: " + actionType) else None;
    report := Report(Some(crumb), tag, captured, slow, nextResult);
  }

  /** An action type holding an entry of a list, at any position, matches that list. */
  lemma ContainsEntry(actionType: string, list: seq<string>, k: nat, at: nat)
    requires k < |list| && OccursAt(actionType, list[k], at)
    ensures MatchesAny(actionType, list)
  {
  }

  /** A streaming chunk is never reported; a failed stream is reported at error level even inside a longer type. */
  lemma StreamingClassification()
    ensures MatchesAny("messages/appendToMessage", IgnoredActions)
    ensures LevelFor("messages/setStreamingError/rejected") == ErrorLevel
  {
    ContainsEntry("messages/appendToMessage", IgnoredActions, 0, 0);
    var t := "messages/setStreamingError/rejected";
    assert t[0..|ErrorActions[0]|] == ErrorActions[0];
    ContainsEntry(t, ErrorActions, 0, 0);
  }
}

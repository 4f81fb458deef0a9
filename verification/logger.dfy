/**
 * The front-end logger: a level filter, redaction of sensitive fields in
 * the data logged, a context merged into every entry, and a buffer of
 * entries sent to the backend in batches of ten or after five seconds
 * without a new entry.
 */
module Logger {
  import opened Common
  import opened JsValues
  import opened JsObjects

  datatype Level = Trace | Debug | Info | Warn | Error

  /** The numeric value of the level enum. */
  function Rank(level: Level): (r: nat)
    ensures r <= 4
    ensures level == Trace <==> r == 0
    ensures level == Error <==> r == 4
  {
    match level
    case Trace => 0
    case Debug => 1
    case Info => 2
    case Warn => 3
    case Error => 4
  }

  /** `LogLevel[level]`, the name an entry carries. */
  function LevelName(level: Level): (r: string)
    ensures |r| >= 4
  {
    match level
    case Trace => "TRACE"
    case Debug => "DEBUG"
    case Info => "INFO"
    case Warn => "WARN"
    case Error => "ERROR"
  }

  /** The names are distinct, so an entry's level name tells its level. */
  lemma LevelNameInjective(a: Level, b: Level)
    ensures LevelName(a) == LevelName(b) ==> a == b
  {
    if a != b {
      assert LevelName(a)[0] != LevelName(b)[0];
    }
  }

  /** The threshold: DEBUG in development, INFO otherwise. */
  function DefaultThreshold(dev: bool): (r: Level)
    ensures dev ==> r == Debug
    ensures !dev ==> r == Info
  {
    if dev then Debug else Info
  }

  /** `shouldLog`: a level at or above the threshold. */
  predicate ShouldLog(level: Level, threshold: Level)
  {
    Rank(level) >= Rank(threshold)
  }

  /** The filter is monotone in the level, errors always pass, and TRACE passes only a TRACE threshold. */
  lemma ShouldLogOrder(a: Level, b: Level, threshold: Level)
    ensures ShouldLog(a, threshold) && Rank(a) <= Rank(b) ==> ShouldLog(b, threshold)
    ensures ShouldLog(Error, threshold)
    ensures ShouldLog(Trace, threshold) <==> threshold == Trace
  {
  }

  const SensitiveKeys: seq<string> := ["apiKey", "api_key", "password", "token", "secret"]

  /**
   * What `sanitize` returns: for an object (arrays included, which the
   * spread turns into index-keyed objects) a copy with every sensitive
   * property redacted; any other value (`null` included) as it is.
   */
  function Sanitized(data: JsValue): (r: JsValue)
    ensures !(data.Obj? || data.Arr?) ==> r == data
    ensures data.Obj? || data.Arr? ==> r == Obj(Redact(Spread(data), SensitiveKeys))
  {
    if data.Obj? || data.Arr? then Obj(Redact(Spread(data), SensitiveKeys)) else data
  }

  /** `sanitize`: the copy, then one assignment per sensitive key present. */
  method Sanitize(data: JsValue) returns (r: JsValue)
    ensures r == Sanitized(data)
  {
    if data.Obj? || data.Arr? {
      var copy := Spread(data);
      var fields := RedactCopy(copy, SensitiveKeys);
      r := Obj(fields);
    } else {
      r := data;
    }
  }

  /** A sanitized object hides every sensitive property it has and keeps every other property's value. */
  lemma SanitizedObject(fields: Fields, key: string)
    ensures key in SensitiveKeys && HasKey(fields, key) ==> Lookup(Sanitized(Obj(fields)).fields, key) == Some(Str(Redacted))
    ensures key !in SensitiveKeys ==> Lookup(Sanitized(Obj(fields)).fields, key) == Lookup(fields, key)
  {
    if key in SensitiveKeys && HasKey(fields, key) {
      RedactLookup(fields, SensitiveKeys, key);
    }
    if key !in SensitiveKeys {
      RedactLookupOther(fields, SensitiveKeys, key);
    }
  }

  /** Sanitizing twice is sanitizing once. */
  lemma SanitizeIdempotent(data: JsValue)
    ensures Sanitized(Sanitized(data)) == Sanitized(data)
  {
    if data.Obj? || data.Arr? {
      RedactIdempotent(Spread(data), SensitiveKeys);
    }
  }

  /** The spread turns an array into an object keyed by the indices. */
  lemma ArrayBecomesObject()
    ensures Sanitized(Arr([Num(7)])) == Obj([("0", Num(7))])
  {
    assert NatToString(0) == "0";
    assert "0" !in SensitiveKeys;
  }

  datatype LogEntry = LogEntry(timestamp: string, level: string, message: string, context: Fields, data: JsValue)

  /** The `data` of an entry: sanitized when truthy, `undefined` otherwise. */
  function EntryData(data: JsValue): (r: JsValue)
    ensures !Truthy(data) ==> r.Undefined?
    ensures Truthy(data) ==> r == Sanitized(data)
  {
    if Truthy(data) then Sanitized(data) else Undefined
  }

  /** `shouldPersist`: in production, TRACE and DEBUG entries are not buffered. */
  predicate ShouldPersist(dev: bool, levelName: string)
  {
    dev || (levelName != "TRACE" && levelName != "DEBUG")
  }

  const BatchSize: nat := 10
  const FlushInterval: nat := 5000

  /** The logger singleton; `timer` is the time the pending flush fires, `None` when none is pending. */
  class Log {
    const dev: bool
    var threshold: Level
    var context: Fields
    var buffer: seq<LogEntry>
    var timer: Option<nat>

    /** The buffer is always below a batch, and in production holds no TRACE or DEBUG entry. */
    predicate Valid()
      reads this
    {
      && |buffer| < BatchSize
      && (!dev ==> forall k :: 0 <= k < |buffer| ==> ShouldPersist(dev, buffer[k].level))
    }

    constructor (dev: bool)
      ensures this.dev == dev && threshold == DefaultThreshold(dev)
      ensures context == [] && buffer == [] && timer.None?
      ensures Valid()
    {
      this.dev := dev;
      threshold := DefaultThreshold(dev);
      context := [];
      buffer := [];
      timer := None;
    }

    /** `setContext`: the given keys override, the others are kept. */
    method SetContext(patch: Fields)
      modifies this
      ensures context == Merge(old(context), patch)
      ensures buffer == old(buffer) && timer == old(timer) && threshold == old(threshold)
    {
      context := Merge(context, patch);
    }

    /** `clearContext`. */
    method ClearContext()
      modifies this
      ensures context == [] && buffer == old(buffer) && timer == old(timer) && threshold == old(threshold)
    {
      context := [];
    }

    /**
     * `log` and `persistLog`: a filtered-out or not-persisted entry changes
     * nothing; otherwise the entry is buffered and either a full batch is
     * handed over (`sent`) and the buffer emptied, or the flush timer is
     * re-armed five seconds from `now`.
     */
    method Write(level: Level, message: string, data: JsValue, timestamp: string, now: nat) returns (sent: seq<LogEntry>)
      requires Valid()
      modifies this
      ensures Valid()
      ensures context == old(context) && threshold == old(threshold)
      ensures var entry := LogEntry(timestamp, LevelName(level), message, old(context), EntryData(data));
        if !ShouldLog(level, old(threshold)) || !ShouldPersist(dev, entry.level) then
          sent == [] && buffer == old(buffer) && timer == old(timer)
        else if |old(buffer)| + 1 >= BatchSize then
          sent == old(buffer) + [entry] && buffer == [] && timer == old(timer)
        else
          sent == [] && buffer == old(buffer) + [entry] && timer == Some(now + FlushInterval)
    {
      sent := [];
      if !ShouldLog(level, threshold) {
        return;
      }
      var payload := Undefined;
      if Truthy(data) {
        payload := Sanitize(data);
      }
      var entry := LogEntry(timestamp, LevelName(level), message, context, payload);
      if !ShouldPersist(dev, entry.level) {
        return;
      }
      buffer := buffer + [entry];
      if |buffer| >= BatchSize {
        sent := Flush();
      } else {
        timer := Some(now + FlushInterval);
      }
    }

    /** `flush`: a non-empty buffer is handed over whole and emptied at once; an empty one sends nothing. */
    method Flush() returns (sent: seq<LogEntry>)
      modifies this
      ensures sent == old(buffer) && buffer == []
      ensures context == old(context) && threshold == old(threshold) && timer == old(timer)
    {
      sent := [];
      if |buffer| == 0 {
        return;
      }
      sent := buffer;
      buffer := [];
    }

    /** The pending flush timer fires. */
    method TimerFires() returns (sent: seq<LogEntry>)
      requires Valid()
      modifies this
      ensures Valid()
      ensures sent == old(buffer) && buffer == [] && timer.None?
      ensures context == old(context) && threshold == old(threshold)
    {
      sent := Flush();
      timer := None;
    }

    /** `flushLogs`, as on `beforeunload`. */
    method FlushLogs() returns (sent: seq<LogEntry>)
      requires Valid()
      modifies this
      ensures Valid()
      ensures sent == old(buffer) && buffer == []
      ensures context == old(context) && threshold == old(threshold) && timer == old(timer)
    {
      sent := Flush();
    }
  }

  /** With the default production threshold no TRACE or DEBUG entry is even built. */
  lemma ProductionDropsVerbose(level: Level)
    requires level == Trace || level == Debug
    ensures !ShouldLog(level, DefaultThreshold(false))
    ensures !ShouldPersist(false, LevelName(level))
  {
  }
}

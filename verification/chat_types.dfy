/**
 * The chat timeline's records: a message, the tool calls and code blocks it
 * may carry, and the roles a message can have.
 */
module ChatTypes {
  import opened Common
  import opened JsValues

  /**
   * The four roles of the front end. A role read from the database is cast
   * without a check, so any other text is kept as `OtherRole`.
   */
  datatype Role = User | Assistant | Tool | ToolCallRole | OtherRole(name: string)

  function RoleFromText(s: string): (r: Role)
    ensures s == "user" <==> r == User
    ensures s == "assistant" <==> r == Assistant
    ensures s == "tool" <==> r == Tool
    ensures s == "tool_call" <==> r == ToolCallRole
  {
    if s == "user" then User
    else if s == "assistant" then Assistant
    else if s == "tool" then Tool
    else if s == "tool_call" then ToolCallRole
    else OtherRole(s)
  }

  datatype ToolCall = ToolCall(id: string, name: string, arguments: JsValue, result: Option<JsValue>, error: Option<string>)

  /** Token counters of an assistant reply (the floating-point rate fields are not modelled). */
  datatype TokenUsage = TokenUsage(promptTokens: Option<int>, completionTokens: Option<int>, totalTokens: Option<int>)

  datatype CodeBlock = CodeBlock(id: string, content: string, language: string)

  datatype Message = Message(
    id: string,
    role: Role,
    content: string,
    reasoning: Option<string>,
    timestamp: int,
    toolCalls: Option<seq<ToolCall>>,
    toolCallId: Option<string>,
    assistantMessageId: Option<string>,
    tokenUsage: Option<TokenUsage>,
    codeBlocks: Option<seq<CodeBlock>>,
    metadata: Option<string>)

  /** JavaScript truthiness of an optional string field: present and non-empty. */
  predicate Truthy(s: Option<string>)
  {
    s.Some? && s.value != ""
  }

  function Ids(ms: seq<Message>): (r: seq<string>)
    ensures |r| == |ms| && forall k :: 0 <= k < |ms| ==> r[k] == ms[k].id
  {
    if ms == [] then [] else [ms[0].id] + Ids(ms[1..])
  }

  /** No two messages share an id. */
  predicate UniqueIds(ms: seq<Message>)
  {
    forall i, j :: 0 <= i < j < |ms| ==> ms[i].id != ms[j].id
  }

  predicate HasId(ms: seq<Message>, id: string)
  {
    exists k :: 0 <= k < |ms| && ms[k].id == id
  }
}

/**
 * The `fetchMessages` thunk's conversion of database rows into front-end
 * messages. The backend call itself is not modelled: its rows are the input.
 */
module FetchMessages {
  import opened Common
  import opened ChatTypes
  import opened CodeBlockExtractor

  /** A row as the backend returns it; SQL NULL is `None`. */
  datatype DbMessage = DbMessage(
    id: string,
    chatId: string,
    role: string,
    content: string,
    timestamp: int,
    assistantMessageId: Option<string>,
    toolCallId: Option<string>,
    reasoning: Option<string>,
    metadata: Option<string>)

  /** The thunk's payload. */
  datatype FetchedChat = FetchedChat(chatId: string, messages: seq<Message>)

  /**
   * One row as a message: seconds become milliseconds, NULL becomes absent,
   * code blocks are extracted from the unchanged content, and the row's
   * `tool_call_id` is not carried over.
   */
  function ToMessage(row: DbMessage): (m: Message)
    ensures m.id == row.id && m.content == row.content && m.role == RoleFromText(row.role)
    ensures m.timestamp == row.timestamp * 1000
    ensures m.assistantMessageId == row.assistantMessageId
    ensures m.reasoning == row.reasoning && m.metadata == row.metadata
    ensures m.codeBlocks.None? <==> ExtractCodeBlocks(row.content) == []
    ensures m.codeBlocks.Some? ==> m.codeBlocks.value == ExtractCodeBlocks(row.content)
    ensures m.toolCallId.None? && m.toolCalls.None? && m.tokenUsage.None?
  {
    var blocks := ExtractCodeBlocks(row.content);
    Message(
      id := row.id,
      role := RoleFromText(row.role),
      content := row.content,
      reasoning := row.reasoning,
      timestamp := row.timestamp * 1000,
      toolCalls := None,
      toolCallId := None,
      assistantMessageId := row.assistantMessageId,
      tokenUsage := None,
      codeBlocks := if |blocks| > 0 then Some(blocks) else None,
      metadata := row.metadata)
  }

  /** The payload for `chatId`: one message per row, in row order. */
  function FetchedMessages(chatId: string, rows: seq<DbMessage>): (r: FetchedChat)
    ensures r.chatId == chatId
    ensures |r.messages| == |rows|
    ensures forall k :: 0 <= k < |rows| ==> r.messages[k] == ToMessage(rows[k])
  {
    FetchedChat(chatId, seq(|rows|, k requires 0 <= k < |rows| => ToMessage(rows[k])))
  }

  /** Distinct row ids (the table's primary key) give distinct message ids. */
  lemma FetchedIdsUnique(chatId: string, rows: seq<DbMessage>)
    requires forall i, j :: 0 <= i < j < |rows| ==> rows[i].id != rows[j].id
    ensures UniqueIds(FetchedMessages(chatId, rows).messages)
  {
  }

  /** Text without a fence gives a message without code blocks. */
  lemma PlainTextHasNoCodeBlocks(row: DbMessage)
    requires !Contains(row.content, FenceMark)
    ensures ToMessage(row).codeBlocks.None?
  {
    NoFenceNoBlocks(row.content);
  }
}

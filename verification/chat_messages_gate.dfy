/**
 * The permission and edit handlers of the chat message view: answering a
 * tool-permission request, the once-a-second scan that denies requests older
 * than a minute, and saving an edited message. Backend calls and dispatches
 * are recorded as effects, in the order they are issued; a backend call's
 * success or failure is an input.
 */
module ChatMessagesGate {
  import opened Common
  import opened ChatTypes
  import opened ToolPermission

  const TimeoutMs: int := 60000
  const ScanIntervalMs: int := 1000

  /** The text of an error notification (the translated default when no message is given). */
  datatype ErrorText = EmptyMessage | PermissionTimeout | EditFailed(message: Option<string>)

  datatype Effect =
    | RespondToolPermission(messageId: string, approved: bool, allowedToolIds: seq<string>)
    | CreateMessage(chatId: string, message: Message)
    | AddMessage(chatId: string, message: Message)
    | RemovePermissionRequest(messageId: string)
    | SetLoading(on: bool)
    | EditAndResend(chatId: string, messageId: string, newContent: string)
    | UpdateMessage(id: string, content: string, reasoning: Option<string>)
    | FetchMessages(chatId: string)
    | ShowError(text: ErrorText)

  /** How an awaited backend call ended: normally, or by throwing (with the error's message when it is an `Error`). */
  datatype Outcome = Succeeded | Threw(errorMessage: Option<string>)

  // ---------------------------------------------------------------------
  // Answering a request
  // ---------------------------------------------------------------------

  /** The assistant notice recorded when the user denies a tool. */
  function DenialNotice(toolName: string): (r: string)
    ensures Contains(r, toolName)
  {
    var prefix := "\U{1F6AB} **System Notification:** Tool `";
    var r := prefix + toolName + "` denied by user. Flow cancelled.";
    assert r[|prefix|..|prefix| + |toolName|] == toolName;
    assert OccursAt(r, toolName, |prefix|);
    r
  }

  /**
   * `handlePermissionRespond`: the answer goes to the backend with the tool's
   * id as the only allowed one on approval and none on denial; a denial with
   * a chat selected records a notice in that chat; the request is removed
   * last, so any failure before that leaves it pending.
   */
  function Respond(messageId: string, toolId: string, toolName: string, approved: bool,
                   selectedChatId: Option<string>, noticeId: string, now: int,
                   respondOk: bool, createOk: bool): (effects: seq<Effect>)
    ensures |effects| >= 1
    ensures effects[0] == RespondToolPermission(messageId, approved, if approved then [toolId] else [])
  {
    var first := [RespondToolPermission(messageId, approved, if approved then [toolId] else [])];
    if !respondOk then first
    else if !approved && Truthy(selectedChatId) then
      var notice := Message(noticeId, Assistant, DenialNotice(toolName), None, now, None, None, None, None, None, None);
      var created := first + [CreateMessage(selectedChatId.value, notice)];
      if !createOk then created
      else created + [AddMessage(selectedChatId.value, notice), RemovePermissionRequest(messageId)]
    else first + [RemovePermissionRequest(messageId)]
  }

  /** The request is removed exactly when every awaited call succeeded, and then as the last effect. */
  lemma RemovedOnlyAfterSuccess(messageId: string, toolId: string, toolName: string, approved: bool,
                                selectedChatId: Option<string>, noticeId: string, now: int,
                                respondOk: bool, createOk: bool)
    ensures var effects := Respond(messageId, toolId, toolName, approved, selectedChatId, noticeId, now, respondOk, createOk);
      && (RemovePermissionRequest(messageId) in effects
          <==> respondOk && (approved || !Truthy(selectedChatId) || createOk))
      && (RemovePermissionRequest(messageId) in effects ==> effects[|effects| - 1] == RemovePermissionRequest(messageId))
  {
  }

  /**
   * A notice is added only for a successful denial with a chat selected; it is
   * an assistant message in the selected chat that names the tool.
   */
  lemma NoticeOnlyOnDenial(messageId: string, toolId: string, toolName: string, approved: bool,
                           selectedChatId: Option<string>, noticeId: string, now: int,
                           respondOk: bool, createOk: bool)
    ensures var effects := Respond(messageId, toolId, toolName, approved, selectedChatId, noticeId, now, respondOk, createOk);
      && ((exists k :: 0 <= k < |effects| && effects[k].AddMessage?)
          <==> respondOk && !approved && Truthy(selectedChatId) && createOk)
      && (forall k :: 0 <= k < |effects| && effects[k].AddMessage? ==>
            && effects[k].chatId == selectedChatId.value
            && effects[k].message.role == Assistant
            && Contains(effects[k].message.content, toolName))
  {
    var effects := Respond(messageId, toolId, toolName, approved, selectedChatId, noticeId, now, respondOk, createOk);
    if respondOk && !approved && Truthy(selectedChatId) && createOk {
      assert effects[2].AddMessage?;
    }
  }

  // ---------------------------------------------------------------------
  // The timeout scan
  // ---------------------------------------------------------------------

  /** A request times out when it has a (non-zero) timestamp more than a minute old. */
  predicate IsExpired(timestamp: int, now: int)
  {
    timestamp != 0 && now - timestamp > TimeoutMs
  }

  /** What one scan starts: a denial per tool call, then one timeout error, per expired request. */
  datatype ScanAction = Deny(messageId: string, toolId: string, toolName: string) | TimeoutError

  function DenyAll(messageId: string, calls: seq<PendingToolCall>): (r: seq<ScanAction>)
    ensures |r| == |calls|
  {
    if calls == [] then []
    else DenyAll(messageId, calls[..|calls| - 1]) + [Deny(messageId, calls[|calls| - 1].id, calls[|calls| - 1].name)]
  }

  lemma {:induction false} DenyAllAt(messageId: string, calls: seq<PendingToolCall>, k: nat)
    requires k < |calls|
    ensures DenyAll(messageId, calls)[k] == Deny(messageId, calls[k].id, calls[k].name)
  {
    if k < |calls| - 1 {
      DenyAllAt(messageId, calls[..|calls| - 1], k);
    }
  }

  function ExpiryActions(req: PermissionRequest, now: int): seq<ScanAction>
  {
    if IsExpired(req.timestamp, now) then DenyAll(req.messageId, req.toolCalls) + [TimeoutError] else []
  }

  function ScanActions(pending: seq<PermissionRequest>, now: int): seq<ScanAction>
  {
    if pending == [] then []
    else ScanActions(pending[..|pending| - 1], now) + ExpiryActions(pending[|pending| - 1], now)
  }

  lemma ScanStep(pending: seq<PermissionRequest>, i: nat, now: int)
    requires i < |pending|
    ensures ScanActions(pending[..i + 1], now) == ScanActions(pending[..i], now) + ExpiryActions(pending[i], now)
  {
    assert pending[..i + 1][..i] == pending[..i];
  }

  lemma DenyAllStep(messageId: string, calls: seq<PendingToolCall>, j: nat)
    requires j < |calls|
    ensures DenyAll(messageId, calls[..j + 1]) == DenyAll(messageId, calls[..j]) + [Deny(messageId, calls[j].id, calls[j].name)]
  {
    assert calls[..j + 1][..j] == calls[..j];
  }

  /** The inner loop of a tick: a denial appended for each tool call of an expired request, in list order. */
  method DenyEach(actions: seq<ScanAction>, messageId: string, calls: seq<PendingToolCall>) returns (r: seq<ScanAction>)
    ensures r == actions + DenyAll(messageId, calls)
  {
    r := actions;
    var j := 0;
    while j < |calls|
      invariant 0 <= j <= |calls|
      invariant r == actions + DenyAll(messageId, calls[..j])
    {
      DenyAllStep(messageId, calls, j);
      r := r + [Deny(messageId, calls[j].id, calls[j].name)];
      j := j + 1;
    }
    assert calls[..j] == calls;
  }

  /** One tick of the interval: requests in key order, tool calls in list order. */
  method Scan(pending: seq<PermissionRequest>, now: int) returns (actions: seq<ScanAction>)
    ensures actions == ScanActions(pending, now)
  {
    actions := [];
    var i := 0;
    while i < |pending|
      invariant 0 <= i <= |pending|
      invariant actions == ScanActions(pending[..i], now)
    {
      var req := pending[i];
      ScanStep(pending, i, now);
      var before := actions;
      if req.timestamp != 0 && now - req.timestamp > TimeoutMs {
        var denials := DenyAll(req.messageId, req.toolCalls);
        actions := DenyEach(actions, req.messageId, req.toolCalls);
        actions := actions + [TimeoutError];
        assert ExpiryActions(req, now) == denials + [TimeoutError];
        SeqAssoc(before, denials, [TimeoutError]);
      } else {
        assert ExpiryActions(req, now) == [];
        assert before + [] == before;
      }
      assert actions == before + ExpiryActions(req, now);
      assert actions == ScanActions(pending[..i + 1], now);
      i := i + 1;
    }
    assert pending[..i] == pending;
  }

  function CountTimeouts(actions: seq<ScanAction>): nat
  {
    if actions == [] then 0
    else CountTimeouts(actions[..|actions| - 1]) + (if actions[|actions| - 1] == TimeoutError then 1 else 0)
  }

  function CountExpired(pending: seq<PermissionRequest>, now: int): nat
  {
    if pending == [] then 0
    else CountExpired(pending[..|pending| - 1], now) + (if IsExpired(pending[|pending| - 1].timestamp, now) then 1 else 0)
  }

  lemma {:induction false} CountTimeoutsAppend(a: seq<ScanAction>, b: seq<ScanAction>)
    ensures CountTimeouts(a + b) == CountTimeouts(a) + CountTimeouts(b)
    decreases |b|
  {
    if b != [] {
      assert (a + b)[..|a + b| - 1] == a + b[..|b| - 1];
      CountTimeoutsAppend(a, b[..|b| - 1]);
    } else {
      assert a + b == a;
    }
  }

  lemma {:induction false} NoTimeoutInDenials(messageId: string, calls: seq<PendingToolCall>)
    ensures CountTimeouts(DenyAll(messageId, calls)) == 0
  {
    if calls != [] {
      NoTimeoutInDenials(messageId, calls[..|calls| - 1]);
    }
  }

  /** One timeout error per expired request, whatever the number of its tool calls. */
  lemma {:induction false} OneErrorPerExpiredRequest(pending: seq<PermissionRequest>, now: int)
    ensures CountTimeouts(ScanActions(pending, now)) == CountExpired(pending, now)
  {
    if pending != [] {
      var last := pending[|pending| - 1];
      OneErrorPerExpiredRequest(pending[..|pending| - 1], now);
      CountTimeoutsAppend(ScanActions(pending[..|pending| - 1], now), ExpiryActions(last, now));
      if IsExpired(last.timestamp, now) {
        NoTimeoutInDenials(last.messageId, last.toolCalls);
        CountTimeoutsAppend(DenyAll(last.messageId, last.toolCalls), [TimeoutError]);
      }
    }
  }

  /** `block` occurs in `s` at offset `off`. */
  predicate BlockAt(s: seq<ScanAction>, block: seq<ScanAction>, off: int)
  {
    0 <= off && off + |block| <= |s| && s[off..off + |block|] == block
  }

  /** An expired request yields a denial for each tool call, in order, and then its timeout error. */
  lemma ExpiredRequestActions(req: PermissionRequest, now: int)
    requires IsExpired(req.timestamp, now)
    ensures var block := ExpiryActions(req, now);
      && |block| == |req.toolCalls| + 1
      && (forall k :: 0 <= k < |req.toolCalls| ==> block[k] == Deny(req.messageId, req.toolCalls[k].id, req.toolCalls[k].name))
      && block[|req.toolCalls|] == TimeoutError
  {
    var block := ExpiryActions(req, now);
    forall k | 0 <= k < |req.toolCalls| ensures block[k] == Deny(req.messageId, req.toolCalls[k].id, req.toolCalls[k].name) {
      DenyAllAt(req.messageId, req.toolCalls, k);
    }
  }

  /** Each request's actions appear in the scan as one uninterrupted block. */
  lemma ScanContainsEachBlock(pending: seq<PermissionRequest>, now: int, i: nat)
    requires i < |pending|
    ensures exists off :: BlockAt(ScanActions(pending, now), ExpiryActions(pending[i], now), off)
  {
    var off := ScanBlock(pending, now, i);
  }

  /** The actions of request `i` sit as one block inside the scan's actions. */
  lemma {:induction false} ScanBlock(pending: seq<PermissionRequest>, now: int, i: nat) returns (off: nat)
    requires i < |pending|
    ensures BlockAt(ScanActions(pending, now), ExpiryActions(pending[i], now), off)
  {
    var init := pending[..|pending| - 1];
    var last := pending[|pending| - 1];
    var s := ScanActions(init, now);
    assert ScanActions(pending, now) == s + ExpiryActions(last, now);
    if i == |pending| - 1 {
      off := |s|;
      BlockAtEnd(s, ExpiryActions(last, now));
    } else {
      off := ScanBlock(init, now, i);
      assert init[i] == pending[i];
      BlockAtExtend(s, ExpiryActions(last, now), ExpiryActions(pending[i], now), off);
    }
  }

  lemma BlockAtEnd(s: seq<ScanAction>, block: seq<ScanAction>)
    ensures BlockAt(s + block, block, |s|)
  {
    assert (s + block)[|s|..|s| + |block|] == block;
  }

  lemma BlockAtExtend(s: seq<ScanAction>, more: seq<ScanAction>, block: seq<ScanAction>, off: int)
    requires BlockAt(s, block, off)
    ensures BlockAt(s + more, block, off)
  {
    assert (s + more)[off..off + |block|] == s[off..off + |block|];
  }

  /** A scan over requests none of which has expired starts nothing. */
  lemma {:induction false} NothingExpiredNothingDone(pending: seq<PermissionRequest>, now: int)
    requires forall k :: 0 <= k < |pending| ==> !IsExpired(pending[k].timestamp, now)
    ensures ScanActions(pending, now) == []
  {
    if pending != [] {
      NothingExpiredNothingDone(pending[..|pending| - 1], now);
    }
  }

  // ---------------------------------------------------------------------
  // Saving an edit
  // ---------------------------------------------------------------------

  /**
   * `handleSaveEdit`: nothing without a selected chat; a blank edit only
   * raises an error; an unknown message is ignored; otherwise the loading
   * flag brackets an edit-and-resend (user message) or an update followed by
   * a refetch (assistant message), and a thrown error is reported.
   */
  function SaveEdit(messageId: string, content: string, selectedChatId: Option<string>,
                    messages: seq<Message>, outcome: Outcome): (effects: seq<Effect>)
    ensures !Truthy(selectedChatId) ==> effects == []
    ensures Truthy(selectedChatId) && Trim(content) == [] ==> effects == [ShowError(EmptyMessage)]
    ensures |effects| > 1 ==> effects[0] == SetLoading(true) && effects[|effects| - 1] == SetLoading(false)
  {
    if !Truthy(selectedChatId) then []
    else if Trim(content) == [] then [ShowError(EmptyMessage)]
    else
      var chatId := selectedChatId.value;
      match FindById(messages, messageId)
      case None => []
      case Some(message) =>
        var work :=
          if message.role == User then
            [EditAndResend(chatId, messageId, content)]
          else if message.role == Assistant then
            var update := UpdateMessage(messageId, content, if Truthy(message.reasoning) then message.reasoning else None);
            if outcome.Succeeded? then [update, FetchMessages(chatId)] else [update]
          else [];
        var failure := if outcome.Threw? && (message.role == User || message.role == Assistant)
          then [ShowError(EditFailed(outcome.errorMessage))] else [];
        [SetLoading(true)] + work + failure + [SetLoading(false)]
  }

  /** `messages.find(m => m.id === messageId)`. */
  function FindById(messages: seq<Message>, id: string): (r: Option<Message>)
    ensures r.Some? ==> r.value in messages && r.value.id == id
    ensures r.None? ==> forall k :: 0 <= k < |messages| ==> messages[k].id != id
  {
    if messages == [] then None
    else if messages[0].id == id then Some(messages[0])
    else
      var r := FindById(messages[1..], id);
      assert r.None? ==> forall k :: 1 <= k < |messages| ==> messages[k] == messages[1..][k - 1];
      r
  }

  /** A user message is re-sent, an assistant message is updated in place and the chat refetched. */
  lemma SaveEditByRole(messageId: string, content: string, chatId: string, messages: seq<Message>, outcome: Outcome)
    requires chatId != "" && Trim(content) != []
    requires FindById(messages, messageId).Some?
    ensures var m := FindById(messages, messageId).value;
      var effects := SaveEdit(messageId, content, Some(chatId), messages, outcome);
      && (m.role == User ==> effects[1] == EditAndResend(chatId, messageId, content))
      && (m.role == Assistant ==>
            effects[1] == UpdateMessage(messageId, content, if Truthy(m.reasoning) then m.reasoning else None)
            && (outcome.Succeeded? <==> FetchMessages(chatId) in effects))
      && (outcome.Threw? && (m.role == User || m.role == Assistant) ==> ShowError(EditFailed(outcome.errorMessage)) in effects)
  {
    var m := FindById(messages, messageId).value;
    var effects := SaveEdit(messageId, content, Some(chatId), messages, outcome);
    if m.role == Assistant && outcome.Threw? {
      assert |effects| == 4;
    }
  }
}

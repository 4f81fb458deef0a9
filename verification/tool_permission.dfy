/**
 * The tool-permission slice: requests awaiting the user's approval, keyed by
 * the id of the assistant message that asked for the tools. A JavaScript
 * object keeps its keys in insertion order and an overwrite keeps the key's
 * place, so the store is a list with at most one request per message id.
 */
module ToolPermission {
  import opened Common
  import opened JsValues

  datatype PendingToolCall = PendingToolCall(id: string, name: string, arguments: JsValue)

  datatype PermissionRequest = PermissionRequest(
    chatId: string,
    messageId: string,
    toolCalls: seq<PendingToolCall>,
    timestamp: int)

  /** At most one request per message id. */
  predicate UniqueKeys(pending: seq<PermissionRequest>)
  {
    forall i, j :: 0 <= i < j < |pending| ==> pending[i].messageId != pending[j].messageId
  }

  predicate IsPending(pending: seq<PermissionRequest>, messageId: string)
  {
    exists k :: 0 <= k < |pending| && pending[k].messageId == messageId
  }

  /** `pendingRequests[messageId]`. */
  function Lookup(pending: seq<PermissionRequest>, messageId: string): (r: Option<PermissionRequest>)
    ensures r.Some? ==> r.value in pending && r.value.messageId == messageId
    ensures r.None? <==> !IsPending(pending, messageId)
  {
    if pending == [] then None
    else if pending[0].messageId == messageId then Some(pending[0])
    else
      var r := Lookup(pending[1..], messageId);
      assert r.None? ==> forall k :: 1 <= k < |pending| ==> pending[k] == pending[1..][k - 1];
      r
  }

  /** `pendingRequests[req.messageId] = req`: replace in place, or add at the end. */
  function Put(pending: seq<PermissionRequest>, req: PermissionRequest): (r: seq<PermissionRequest>)
    ensures |r| == |pending| + (if IsPending(pending, req.messageId) then 0 else 1)
    ensures forall k :: 0 <= k < |r| ==> r[k] == req || r[k] in pending
    ensures IsPending(r, req.messageId)
  {
    if pending == [] then
      assert [req][0] == req;
      [req]
    else if pending[0].messageId == req.messageId then
      assert ([req] + pending[1..])[0] == req;
      [req] + pending[1..]
    else
      var rest := Put(pending[1..], req);
      assert IsPending(pending, req.messageId) <==> IsPending(pending[1..], req.messageId) by {
        if IsPending(pending, req.messageId) {
          var k :| 0 <= k < |pending| && pending[k].messageId == req.messageId;
          assert pending[1..][k - 1] == pending[k];
        }
      }
      assert ([pending[0]] + rest)[1..] == rest;
      [pending[0]] + rest
  }

  /** `delete pendingRequests[messageId]`. */
  function Delete(pending: seq<PermissionRequest>, messageId: string): (r: seq<PermissionRequest>)
    ensures !IsPending(r, messageId)
    ensures forall k :: 0 <= k < |r| ==> r[k] in pending
  {
    if pending == [] then []
    else if pending[0].messageId == messageId then Delete(pending[1..], messageId)
    else [pending[0]] + Delete(pending[1..], messageId)
  }

  lemma {:induction false} PutKeepsUniqueKeys(pending: seq<PermissionRequest>, req: PermissionRequest)
    requires UniqueKeys(pending)
    ensures UniqueKeys(Put(pending, req))
  {
    if pending != [] && pending[0].messageId != req.messageId {
      PutKeepsUniqueKeys(pending[1..], req);
      var rest := Put(pending[1..], req);
      forall k | 0 <= k < |rest| ensures rest[k].messageId != pending[0].messageId {
        if rest[k] != req {
          var q :| 0 <= q < |pending[1..]| && pending[1..][q] == rest[k];
          assert pending[q + 1] == rest[k];
        }
      }
    }
  }

  /** After an add, the request is stored under its message id, replacing any earlier one. */
  lemma {:induction false} PutThenLookup(pending: seq<PermissionRequest>, req: PermissionRequest)
    ensures Lookup(Put(pending, req), req.messageId) == Some(req)
  {
    if pending != [] && pending[0].messageId != req.messageId {
      PutThenLookup(pending[1..], req);
    }
  }

  /** An add leaves every other message id's request as it was. */
  lemma {:induction false} PutOtherLookup(pending: seq<PermissionRequest>, req: PermissionRequest, messageId: string)
    requires messageId != req.messageId
    ensures Lookup(Put(pending, req), messageId) == Lookup(pending, messageId)
  {
    if pending != [] && pending[0].messageId != req.messageId {
      PutOtherLookup(pending[1..], req, messageId);
    }
  }

  /** A remove leaves every other message id's request as it was. */
  lemma {:induction false} DeleteOtherLookup(pending: seq<PermissionRequest>, messageId: string, other: string)
    requires other != messageId
    ensures Lookup(Delete(pending, messageId), other) == Lookup(pending, other)
  {
    if pending != [] {
      DeleteOtherLookup(pending[1..], messageId, other);
    }
  }

  /** Removing an id that is not stored changes nothing. */
  lemma {:induction false} DeleteAbsent(pending: seq<PermissionRequest>, messageId: string)
    requires !IsPending(pending, messageId)
    ensures Delete(pending, messageId) == pending
  {
    if pending != [] {
      assert !IsPending(pending[1..], messageId) by {
        forall k | 0 <= k < |pending| - 1 ensures pending[1..][k].messageId != messageId {
          assert pending[1..][k] == pending[k + 1];
        }
      }
      DeleteAbsent(pending[1..], messageId);
    }
  }

  /** Removing a stored id shortens the store by exactly one. */
  lemma {:induction false} DeletePresent(pending: seq<PermissionRequest>, messageId: string)
    requires UniqueKeys(pending) && IsPending(pending, messageId)
    ensures |Delete(pending, messageId)| == |pending| - 1
  {
    if pending[0].messageId == messageId {
      assert !IsPending(pending[1..], messageId) by {
        forall k | 0 <= k < |pending| - 1 ensures pending[1..][k].messageId != messageId {
          assert pending[1..][k] == pending[k + 1];
        }
      }
      DeleteAbsent(pending[1..], messageId);
    } else {
      var k :| 0 <= k < |pending| && pending[k].messageId == messageId;
      assert pending[1..][k - 1] == pending[k];
      DeletePresent(pending[1..], messageId);
    }
  }

  class PermissionStore {
    var pendingRequests: seq<PermissionRequest>

    /** The initial state has no pending request. */
    constructor ()
      ensures pendingRequests == []
    {
      pendingRequests := [];
    }

    predicate Valid()
      reads this
    {
      UniqueKeys(pendingRequests)
    }

    /** `addPermissionRequest`. */
    method Add(req: PermissionRequest)
      requires Valid()
      modifies this
      ensures Valid()
      ensures pendingRequests == Put(old(pendingRequests), req)
      ensures Lookup(pendingRequests, req.messageId) == Some(req)
      ensures forall id :: id != req.messageId ==> Lookup(pendingRequests, id) == Lookup(old(pendingRequests), id)
      ensures |pendingRequests| == |old(pendingRequests)| + (if IsPending(old(pendingRequests), req.messageId) then 0 else 1)
    {
      PutKeepsUniqueKeys(pendingRequests, req);
      PutThenLookup(pendingRequests, req);
      forall id | id != req.messageId
        ensures Lookup(Put(pendingRequests, req), id) == Lookup(pendingRequests, id)
      {
        PutOtherLookup(pendingRequests, req, id);
      }
      pendingRequests := Put(pendingRequests, req);
    }

    /** `removePermissionRequest`. */
    method Remove(messageId: string)
      requires Valid()
      modifies this
      ensures Valid()
      ensures pendingRequests == Delete(old(pendingRequests), messageId)
      ensures Lookup(pendingRequests, messageId) == None
      ensures forall id :: id != messageId ==> Lookup(pendingRequests, id) == Lookup(old(pendingRequests), id)
      ensures !IsPending(old(pendingRequests), messageId) ==> pendingRequests == old(pendingRequests)
    {
      forall id | id != messageId
        ensures Lookup(Delete(pendingRequests, messageId), id) == Lookup(pendingRequests, id)
      {
        DeleteOtherLookup(pendingRequests, messageId, id);
      }
      if !IsPending(pendingRequests, messageId) {
        DeleteAbsent(pendingRequests, messageId);
      }
      DeleteKeepsUniqueKeys(pendingRequests, messageId);
      var r := Delete(pendingRequests, messageId);
      pendingRequests := r;
    }

    /** `clearAllRequests`. */
    method ClearAll()
      modifies this
      ensures pendingRequests == []
    {
      pendingRequests := [];
    }
  }

  lemma {:induction false} DeleteKeepsUniqueKeys(pending: seq<PermissionRequest>, messageId: string)
    requires UniqueKeys(pending)
    ensures UniqueKeys(Delete(pending, messageId))
  {
    if pending != [] {
      DeleteKeepsUniqueKeys(pending[1..], messageId);
      if pending[0].messageId != messageId {
        var rest := Delete(pending[1..], messageId);
        forall k | 0 <= k < |rest| ensures rest[k].messageId != pending[0].messageId {
          var q :| 0 <= q < |pending[1..]| && pending[1..][q] == rest[k];
          assert pending[q + 1] == rest[k];
        }
      }
    }
  }
}

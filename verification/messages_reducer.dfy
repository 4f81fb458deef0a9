/**
 * The messages slice's extra reducers: the `fetchMessages` and `sendMessage`
 * lifecycle cases. The heart is the fulfilled case of `fetchMessages`, which
 * merges a persisted snapshot of a chat into the in-memory list without
 * losing the reply that is still streaming. Its specification is the pure
 * function `Reconcile`; the class below performs it step by step.
 */
module MessagesReducer {
  import opened Common
  import opened ChatTypes
  import opened MessageOrder

  /** `findIndex` by id: the first position holding that id. */
  function IndexOfId(s: seq<Message>, id: string): (r: Option<nat>)
    ensures r.Some? ==> r.value < |s| && s[r.value].id == id
    ensures r.Some? ==> forall k :: 0 <= k < r.value ==> s[k].id != id
    ensures r.None? <==> !HasId(s, id)
  {
    if s == [] then None
    else if s[0].id == id then Some(0)
    else
      match IndexOfId(s[1..], id)
      case None =>
        assert forall k :: 1 <= k < |s| ==> s[k].id == s[1..][k - 1].id;
        None
      case Some(i) => Some(i + 1)
  }

  /** `find` by id: the first message holding that id. */
  function FirstWithId(s: seq<Message>, id: string): (r: Option<Message>)
    ensures r.Some? ==> r.value in s && r.value.id == id
    ensures r.None? <==> !HasId(s, id)
  {
    match IndexOfId(s, id)
    case None => None
    case Some(i) => Some(s[i])
  }

  /**
   * `new Map(s.map(m => [m.id, m])).get(id)`: a map built from a list keeps
   * the last entry of each key.
   */
  function LastWithId(s: seq<Message>, id: string): (r: Option<Message>)
    ensures r.Some? ==> r.value in s && r.value.id == id
    ensures r.None? <==> !HasId(s, id)
  {
    if s == [] then None
    else if s[|s| - 1].id == id then Some(s[|s| - 1])
    else
      var r := LastWithId(s[..|s| - 1], id);
      assert r.None? ==> forall k :: 0 <= k < |s| - 1 ==> s[k].id == s[..|s| - 1][k].id;
      r
  }

  /** In a list with unique ids, the first and the last holder of an id are the same message. */
  lemma LookupInUnique(s: seq<Message>, x: Message)
    requires UniqueIds(s) && x in s
    ensures FirstWithId(s, x.id) == Some(x) && LastWithId(s, x.id) == Some(x)
  {
    var p :| 0 <= p < |s| && s[p] == x;
    var f := FirstWithId(s, x.id).value;
    var q :| 0 <= q < |s| && s[q] == f;
    var l := LastWithId(s, x.id).value;
    var r :| 0 <= r < |s| && s[r] == l;
  }

  /**
   * A fetched message with its in-memory counterpart's reasoning when that is
   * truthy (`currentMsg.reasoning || fetchedMsg.reasoning`).
   */
  function MergeOne(f: Message, current: seq<Message>): (r: Message)
    ensures r == f.(reasoning := r.reasoning)
    ensures Truthy(r.reasoning) || r.reasoning == f.reasoning
  {
    match LastWithId(current, f.id)
    case None => f
    case Some(c) => f.(reasoning := if Truthy(c.reasoning) then c.reasoning else f.reasoning)
  }

  /** `mergedMessages` before the streaming patch: the snapshot, position by position. */
  function Merge(current: seq<Message>, fetched: seq<Message>): (r: seq<Message>)
    ensures |r| == |fetched|
    ensures forall i :: 0 <= i < |fetched| ==> r[i] == MergeOne(fetched[i], current)
  {
    seq(|fetched|, i requires 0 <= i < |fetched| => MergeOne(fetched[i], current))
  }

  /** The in-memory message the chat's streaming id names, when that id is truthy. */
  function StreamingSource(current: seq<Message>, streamingId: Option<string>): (r: Option<Message>)
    ensures r.Some? <==> Truthy(streamingId) && HasId(current, streamingId.value)
    ensures r.Some? ==> r.value in current && r.value.id == streamingId.value
  {
    if Truthy(streamingId) then FirstWithId(current, streamingId.value) else None
  }

  /**
   * The streaming patch: the snapshot's copy of the streaming message takes
   * the in-memory content, reasoning and code blocks; a streaming message the
   * snapshot lacks is appended without its metadata.
   */
  function Patch(merged: seq<Message>, current: seq<Message>, streamingId: Option<string>): (r: seq<Message>)
    ensures StreamingSource(current, streamingId).None? ==> r == merged
  {
    match StreamingSource(current, streamingId)
    case None => merged
    case Some(c) =>
      match IndexOfId(merged, streamingId.value)
      case Some(i) => merged[i := merged[i].(content := c.content, reasoning := c.reasoning, codeBlocks := c.codeBlocks)]
      case None => merged + [c.(metadata := None)]
  }

  /** `fetchedMessages.map(m => mergedMessages.find(same id) || m)`. */
  function Resolve(fetched: seq<Message>, merged: seq<Message>): (r: seq<Message>)
    ensures |r| == |fetched|
  {
    seq(|fetched|, i requires 0 <= i < |fetched| =>
      match FirstWithId(merged, fetched[i].id)
      case Some(m) => m
      case None => fetched[i])
  }

  /** One step of the `forEach`: push `m` unless a message with its id is already there. */
  function PushIfMissing(acc: seq<Message>, m: Message): seq<Message>
  {
    if HasId(acc, m.id) then acc else acc + [m]
  }

  /** The `forEach` over `rest`, pushing each message whose id is still missing. */
  function AppendMissing(acc: seq<Message>, rest: seq<Message>): (r: seq<Message>)
    ensures |acc| <= |r| && r[..|acc|] == acc
    ensures forall m :: m in r ==> m in acc || m in rest
    decreases |rest|
  {
    if rest == [] then acc else AppendMissing(PushIfMissing(acc, rest[0]), rest[1..])
  }

  /** `mergedMessages` after the streaming patch. */
  function Patched(current: seq<Message>, fetched: seq<Message>, streamingId: Option<string>): seq<Message>
  {
    Patch(Merge(current, fetched), current, streamingId)
  }

  /** The list before the final sort. */
  function PreSort(current: seq<Message>, fetched: seq<Message>, streamingId: Option<string>): seq<Message>
  {
    var merged := Patched(current, fetched, streamingId);
    AppendMissing(Resolve(fetched, merged), merged)
  }

  /** The chat's new list after `fetchMessages.fulfilled`. */
  function Reconcile(current: seq<Message>, fetched: seq<Message>, streamingId: Option<string>): (r: seq<Message>)
    ensures multiset(r) == multiset(PreSort(current, fetched, streamingId))
  {
    SortByTimestamp(PreSort(current, fetched, streamingId))
  }

  // ---------------------------------------------------------------------
  // The pre-sort list, for a snapshot with unique ids (the table's key)
  // ---------------------------------------------------------------------

  lemma {:induction false} AppendMissingConcat(acc: seq<Message>, a: seq<Message>, b: seq<Message>)
    ensures AppendMissing(acc, a + b) == AppendMissing(AppendMissing(acc, a), b)
    decreases |a|
  {
    if a == [] {
      assert a + b == b;
    } else {
      assert (a + b)[0] == a[0] && (a + b)[1..] == a[1..] + b;
      AppendMissingConcat(PushIfMissing(acc, a[0]), a[1..], b);
    }
  }

  lemma {:induction false} AppendMissingPresent(acc: seq<Message>, rest: seq<Message>)
    requires forall k :: 0 <= k < |rest| ==> HasId(acc, rest[k].id)
    ensures AppendMissing(acc, rest) == acc
    decreases |rest|
  {
    if rest != [] {
      assert HasId(acc, rest[0].id);
      assert forall k :: 0 <= k < |rest| - 1 ==> rest[1..][k] == rest[k + 1];
      AppendMissingPresent(acc, rest[1..]);
    }
  }

  /** The patched list: snapshot ids in snapshot order, then possibly the streaming message. */
  lemma PatchShape(current: seq<Message>, fetched: seq<Message>, streamingId: Option<string>)
    requires UniqueIds(fetched)
    ensures var p := Patched(current, fetched, streamingId);
      && |p| >= |fetched|
      && (forall i :: 0 <= i < |fetched| ==> p[i].id == fetched[i].id)
      && (|p| > |fetched| ==> |p| == |fetched| + 1 && !HasId(fetched, p[|fetched|].id))
      && UniqueIds(p)
  {
    var m := Merge(current, fetched);
    var p := Patch(m, current, streamingId);
    assert forall i :: 0 <= i < |fetched| ==> m[i].id == fetched[i].id;
    match StreamingSource(current, streamingId)
    case None =>
    case Some(c) =>
      match IndexOfId(m, streamingId.value)
      case Some(j) =>
      case None =>
        assert p == m + [c.(metadata := None)];
        assert !HasId(fetched, c.id);
  }

  /** With unique snapshot ids, the `map`/`forEach` pass changes nothing. */
  lemma PreSortIsPatched(current: seq<Message>, fetched: seq<Message>, streamingId: Option<string>)
    requires UniqueIds(fetched)
    ensures PreSort(current, fetched, streamingId) == Patched(current, fetched, streamingId)
  {
    var p := Patched(current, fetched, streamingId);
    PatchShape(current, fetched, streamingId);
    var n := |fetched|;
    var head := Resolve(fetched, p);
    forall i | 0 <= i < n ensures head[i] == p[i] {
      LookupInUnique(p, p[i]);
    }
    assert head == p[..n];
    forall k | 0 <= k < n ensures HasId(head, p[..n][k].id) {
      assert head[k].id == p[..n][k].id;
    }
    AppendMissingPresent(head, p[..n]);
    if |p| == n {
      assert p[..n] == p;
    } else {
      assert p == p[..n] + [p[n]];
      AppendMissingConcat(head, p[..n], [p[n]]);
      assert !HasId(head, p[n].id) by {
        forall k | 0 <= k < n ensures head[k].id != p[n].id {
          assert head[k].id == fetched[k].id;
        }
      }
    }
  }

  // ---------------------------------------------------------------------
  // What the merge promises
  // ---------------------------------------------------------------------

  /** Every message of the patched list is in the stored list. */
  lemma PatchedInReconcile(current: seq<Message>, fetched: seq<Message>, streamingId: Option<string>, k: nat)
    requires UniqueIds(fetched) && k < |Patched(current, fetched, streamingId)|
    ensures Patched(current, fetched, streamingId)[k] in Reconcile(current, fetched, streamingId)
  {
    PreSortIsPatched(current, fetched, streamingId);
    var p := Patched(current, fetched, streamingId);
    assert p[k] in multiset(p);
  }

  /**
   * A snapshot message that is not the streaming one keeps the in-memory
   * reasoning when that is truthy and is otherwise the fetched message.
   */
  lemma KeepsMemoryReasoning(current: seq<Message>, fetched: seq<Message>, streamingId: Option<string>, i: nat)
    requires UniqueIds(fetched) && i < |fetched|
    requires !Truthy(streamingId) || !HasId(current, streamingId.value) || fetched[i].id != streamingId.value
    ensures var f := fetched[i];
      var c := LastWithId(current, f.id);
      var r := Reconcile(current, fetched, streamingId);
      && (c.Some? && Truthy(c.value.reasoning) ==> f.(reasoning := c.value.reasoning) in r)
      && (!(c.Some? && Truthy(c.value.reasoning)) ==> f in r)
  {
    var m := Merge(current, fetched);
    var p := Patched(current, fetched, streamingId);
    assert p[i] == m[i] by {
      match StreamingSource(current, streamingId) {
        case None =>
        case Some(c) =>
          match IndexOfId(m, streamingId.value) {
            case Some(j) => assert m[i].id == fetched[i].id;
            case None =>
          }
      }
    }
    PatchedInReconcile(current, fetched, streamingId, i);
  }

  /**
   * The streaming message, when both memory and snapshot hold it, takes its
   * content, reasoning and code blocks from memory and everything else from
   * the snapshot.
   */
  lemma StreamingKeepsMemoryText(current: seq<Message>, fetched: seq<Message>, id: string, j: nat)
    requires UniqueIds(fetched) && id != "" && j < |fetched| && fetched[j].id == id
    requires FirstWithId(current, id).Some?
    ensures var c := FirstWithId(current, id).value;
      fetched[j].(content := c.content, reasoning := c.reasoning, codeBlocks := c.codeBlocks)
        in Reconcile(current, fetched, Some(id))
  {
    var sid := Some(id);
    PreSortIsPatched(current, fetched, sid);
    PatchShape(current, fetched, sid);
    var m := Merge(current, fetched);
    var p := Patch(m, current, sid);
    LookupInUnique(m, m[j]);
    assert IndexOfId(m, id) == Some(j) by {
      var r := IndexOfId(m, id);
      assert r.Some?;
      LookupInUnique(p, p[j]);
    }
    assert p[j] in multiset(Reconcile(current, fetched, sid));
  }

  /** A streaming message that only memory holds is appended, minus its metadata. */
  lemma StreamingAppended(current: seq<Message>, fetched: seq<Message>, id: string)
    requires UniqueIds(fetched) && id != "" && !HasId(fetched, id)
    requires FirstWithId(current, id).Some?
    ensures var c := FirstWithId(current, id).value;
      var r := Reconcile(current, fetched, Some(id));
      c.(metadata := None) in r && |r| == |fetched| + 1
  {
    var sid := Some(id);
    PreSortIsPatched(current, fetched, sid);
    var m := Merge(current, fetched);
    assert !HasId(m, id) by {
      forall k | 0 <= k < |m| ensures m[k].id != id {
        assert m[k].id == fetched[k].id;
      }
    }
    var p := Patch(m, current, sid);
    var c := FirstWithId(current, id).value;
    assert p == m + [c.(metadata := None)];
    assert p[|m|] in multiset(Reconcile(current, fetched, sid));
  }

  /**
   * Every snapshot message is in the result; anything else in the result is
   * the streaming message; ids stay unique, and the result is one longer than
   * the snapshot exactly when the streaming message was appended.
   */
  lemma ReconcileMembers(current: seq<Message>, fetched: seq<Message>, streamingId: Option<string>)
    requires UniqueIds(fetched)
    ensures var r := Reconcile(current, fetched, streamingId);
      && UniqueIds(r)
      && (forall k :: 0 <= k < |fetched| ==> HasId(r, fetched[k].id))
      && (forall k :: 0 <= k < |r| ==>
            HasId(fetched, r[k].id) || (Truthy(streamingId) && r[k].id == streamingId.value && HasId(current, r[k].id)))
      && |r| == |fetched| + (if Truthy(streamingId) && HasId(current, streamingId.value) && !HasId(fetched, streamingId.value) then 1 else 0)
  {
    var r := Reconcile(current, fetched, streamingId);
    PreSortIsPatched(current, fetched, streamingId);
    PatchShape(current, fetched, streamingId);
    PermutationKeepsUniqueIds(Patched(current, fetched, streamingId), r);
    ReconcileKeepsSnapshot(current, fetched, streamingId);
    ReconcileAddsOnlyStreaming(current, fetched, streamingId);
    ReconcileLength(current, fetched, streamingId);
  }

  lemma ReconcileKeepsSnapshot(current: seq<Message>, fetched: seq<Message>, streamingId: Option<string>)
    requires UniqueIds(fetched)
    ensures forall k :: 0 <= k < |fetched| ==> HasId(Reconcile(current, fetched, streamingId), fetched[k].id)
  {
    var r := Reconcile(current, fetched, streamingId);
    var p := Patched(current, fetched, streamingId);
    PreSortIsPatched(current, fetched, streamingId);
    PatchShape(current, fetched, streamingId);
    assert multiset(r) == multiset(p);
    forall k | 0 <= k < |fetched| ensures HasId(r, fetched[k].id) {
      assert p[k] in multiset(r);
    }
  }

  lemma ReconcileAddsOnlyStreaming(current: seq<Message>, fetched: seq<Message>, streamingId: Option<string>)
    requires UniqueIds(fetched)
    ensures var r := Reconcile(current, fetched, streamingId);
      forall k :: 0 <= k < |r| ==>
        HasId(fetched, r[k].id) || (Truthy(streamingId) && r[k].id == streamingId.value && HasId(current, r[k].id))
  {
    var r := Reconcile(current, fetched, streamingId);
    var m := Merge(current, fetched);
    var p := Patch(m, current, streamingId);
    PreSortIsPatched(current, fetched, streamingId);
    PatchShape(current, fetched, streamingId);
    assert multiset(r) == multiset(p);
    forall k | 0 <= k < |r| ensures HasId(fetched, r[k].id)
      || (Truthy(streamingId) && r[k].id == streamingId.value && HasId(current, r[k].id))
    {
      assert r[k] in multiset(p);
      var q :| 0 <= q < |p| && p[q] == r[k];
      if q >= |fetched| {
        assert p != m;
        var c := StreamingSource(current, streamingId).value;
        assert p == m + [c.(metadata := None)];
      }
    }
  }

  lemma ReconcileLength(current: seq<Message>, fetched: seq<Message>, streamingId: Option<string>)
    requires UniqueIds(fetched)
    ensures |Reconcile(current, fetched, streamingId)| ==
      |fetched| + (if Truthy(streamingId) && HasId(current, streamingId.value) && !HasId(fetched, streamingId.value) then 1 else 0)
  {
    var r := Reconcile(current, fetched, streamingId);
    var m := Merge(current, fetched);
    var p := Patch(m, current, streamingId);
    PreSortIsPatched(current, fetched, streamingId);
    PatchShape(current, fetched, streamingId);
    assert |r| == |p| by {
      assert |multiset(r)| == |multiset(p)|;
    }
    if Truthy(streamingId) && HasId(current, streamingId.value) {
      if HasId(fetched, streamingId.value) {
        var j :| 0 <= j < |fetched| && fetched[j].id == streamingId.value;
        assert m[j].id == streamingId.value;
      } else {
        assert !HasId(m, streamingId.value) by {
          forall k | 0 <= k < |m| ensures m[k].id != streamingId.value {
            assert m[k].id == fetched[k].id;
          }
        }
      }
    }
  }

  /** The stored list is sorted by timestamp, and equal timestamps keep the merge order. */
  lemma ReconcileSortedStable(current: seq<Message>, fetched: seq<Message>, streamingId: Option<string>)
    ensures SortedByTimestamp(Reconcile(current, fetched, streamingId))
    ensures forall t :: AtTime(Reconcile(current, fetched, streamingId), t) == AtTime(PreSort(current, fetched, streamingId), t)
  {
    SortIsSorted(PreSort(current, fetched, streamingId));
    forall t ensures AtTime(Reconcile(current, fetched, streamingId), t) == AtTime(PreSort(current, fetched, streamingId), t) {
      SortIsStable(PreSort(current, fetched, streamingId), t);
    }
  }

  /** Merging against a rearrangement of a previous merge result. */
  lemma MergeAgain(fetched: seq<Message>, p: seq<Message>, r: seq<Message>)
    requires UniqueIds(p) && multiset(r) == multiset(p)
    requires |p| >= |fetched| && forall i :: 0 <= i < |fetched| ==> p[i].id == fetched[i].id
    ensures forall i :: 0 <= i < |fetched| ==>
      Merge(r, fetched)[i] == fetched[i].(reasoning := if Truthy(p[i].reasoning) then p[i].reasoning else fetched[i].reasoning)
  {
    PermutationKeepsUniqueIds(p, r);
    forall i | 0 <= i < |fetched|
      ensures Merge(r, fetched)[i] == fetched[i].(reasoning := if Truthy(p[i].reasoning) then p[i].reasoning else fetched[i].reasoning)
    {
      assert p[i] in multiset(r);
      LookupInUnique(r, p[i]);
    }
  }

  /** The first pass left the streaming message alone: the second pass does too. */
  lemma SecondPassUnpatched(current: seq<Message>, fetched: seq<Message>, streamingId: Option<string>, r: seq<Message>)
    requires UniqueIds(fetched) && StreamingSource(current, streamingId).None?
    requires multiset(r) == multiset(Patched(current, fetched, streamingId))
    ensures Patched(r, fetched, streamingId) == Patched(current, fetched, streamingId)
  {
    var m1 := Merge(current, fetched);
    var p1 := Patched(current, fetched, streamingId);
    PatchShape(current, fetched, streamingId);
    MergeAgain(fetched, p1, r);
    var m2 := Merge(r, fetched);
    assert p1 == m1;
    assert m2 == m1;
    match StreamingSource(r, streamingId) {
      case None =>
      case Some(x) =>
        assert x in multiset(m1);
        LookupInUnique(m1, x);
        var j := IndexOfId(m1, x.id).value;
        assert m1[j := m1[j].(content := x.content, reasoning := x.reasoning, codeBlocks := x.codeBlocks)] == m1;
    }
  }

  /** The first pass patched the snapshot's copy at `j`: the second pass patches it to the same value. */
  lemma SecondPassPatched(current: seq<Message>, fetched: seq<Message>, streamingId: Option<string>, r: seq<Message>, j: nat)
    requires UniqueIds(fetched) && StreamingSource(current, streamingId).Some?
    requires IndexOfId(Merge(current, fetched), streamingId.value) == Some(j)
    requires multiset(r) == multiset(Patched(current, fetched, streamingId))
    ensures Patched(r, fetched, streamingId) == Patched(current, fetched, streamingId)
  {
    var c := StreamingSource(current, streamingId).value;
    var m1 := Merge(current, fetched);
    var p1 := Patched(current, fetched, streamingId);
    PatchShape(current, fetched, streamingId);
    MergeAgain(fetched, p1, r);
    PermutationKeepsUniqueIds(p1, r);
    var m2 := Merge(r, fetched);
    assert p1 == m1[j := m1[j].(content := c.content, reasoning := c.reasoning, codeBlocks := c.codeBlocks)];
    assert p1[j] in multiset(r);
    LookupInUnique(r, p1[j]);
    assert UniqueIds(m2) by {
      assert forall i :: 0 <= i < |fetched| ==> m2[i].id == fetched[i].id;
    }
    LookupInUnique(m2, m2[j]);
    assert IndexOfId(m2, streamingId.value) == Some(j);
  }

  /** The first pass appended the streaming message: the second pass appends the same copy. */
  lemma SecondPassAppended(current: seq<Message>, fetched: seq<Message>, streamingId: Option<string>, r: seq<Message>)
    requires UniqueIds(fetched) && StreamingSource(current, streamingId).Some?
    requires IndexOfId(Merge(current, fetched), streamingId.value).None?
    requires multiset(r) == multiset(Patched(current, fetched, streamingId))
    ensures Patched(r, fetched, streamingId) == Patched(current, fetched, streamingId)
  {
    var c1 := StreamingSource(current, streamingId).value.(metadata := None);
    var m1 := Merge(current, fetched);
    var p1 := Patched(current, fetched, streamingId);
    var n := |fetched|;
    PatchShape(current, fetched, streamingId);
    MergeAgain(fetched, p1, r);
    PermutationKeepsUniqueIds(p1, r);
    var m2 := Merge(r, fetched);
    assert p1 == m1 + [c1];
    assert p1[n] in multiset(r);
    LookupInUnique(r, p1[n]);
    assert m2 == m1;
  }

  /** Applying the same snapshot twice, with the same streaming id, equals applying it once. */
  lemma ReconcileIdempotent(current: seq<Message>, fetched: seq<Message>, streamingId: Option<string>)
    requires UniqueIds(fetched)
    ensures Reconcile(Reconcile(current, fetched, streamingId), fetched, streamingId) == Reconcile(current, fetched, streamingId)
  {
    var r1 := Reconcile(current, fetched, streamingId);
    PreSortIsPatched(current, fetched, streamingId);
    PreSortIsPatched(r1, fetched, streamingId);
    match StreamingSource(current, streamingId) {
      case None =>
        SecondPassUnpatched(current, fetched, streamingId, r1);
      case Some(c) =>
        match IndexOfId(Merge(current, fetched), streamingId.value) {
          case Some(j) => SecondPassPatched(current, fetched, streamingId, r1, j);
          case None => SecondPassAppended(current, fetched, streamingId, r1);
        }
    }
  }

  // ---------------------------------------------------------------------
  // The steps of the fulfilled case, each against its specification
  // ---------------------------------------------------------------------

  /** The `fetchedMessages.map` that carries over in-memory reasoning. */
  method MergeSnapshot(current: seq<Message>, fetched: seq<Message>) returns (merged: seq<Message>)
    ensures merged == Merge(current, fetched)
  {
    merged := [];
    var i := 0;
    while i < |fetched|
      invariant 0 <= i <= |fetched| && |merged| == i
      invariant forall k :: 0 <= k < i ==> merged[k] == MergeOne(fetched[k], current)
    {
      var f := fetched[i];
      var cur := LastWithId(current, f.id);
      if cur.Some? {
        merged := merged + [f.(reasoning := if Truthy(cur.value.reasoning) then cur.value.reasoning else f.reasoning)];
      } else {
        merged := merged + [f];
      }
      i := i + 1;
    }
  }

  /** The streaming guard: patch the snapshot's copy in place, or push the in-memory one. */
  method PatchStreaming(merged: seq<Message>, current: seq<Message>, streamingId: Option<string>) returns (r: seq<Message>)
    ensures r == Patch(merged, current, streamingId)
  {
    r := merged;
    if Truthy(streamingId) {
      var index := IndexOfId(r, streamingId.value);
      var cur := FirstWithId(current, streamingId.value);
      if cur.Some? {
        var c := cur.value;
        if index.Some? {
          var j := index.value;
          r := r[j := r[j].(content := c.content, reasoning := c.reasoning, codeBlocks := c.codeBlocks)];
        } else {
          r := r + [c.(metadata := None)];
        }
      }
    }
  }

  /** `finalMessages`: each fetched id looked up in the merged list. */
  method ResolveSnapshot(fetched: seq<Message>, merged: seq<Message>) returns (final: seq<Message>)
    ensures final == Resolve(fetched, merged)
  {
    final := [];
    var i := 0;
    while i < |fetched|
      invariant 0 <= i <= |fetched| && final == Resolve(fetched, merged)[..i]
    {
      var found := FirstWithId(merged, fetched[i].id);
      final := final + [if found.Some? then found.value else fetched[i]];
      i := i + 1;
    }
  }

  /** The `forEach` that pushes merged messages whose id `final` lacks. */
  method PushMissing(final: seq<Message>, merged: seq<Message>) returns (r: seq<Message>)
    ensures r == AppendMissing(final, merged)
  {
    r := final;
    var i := 0;
    while i < |merged|
      invariant 0 <= i <= |merged|
      invariant AppendMissing(r, merged[i..]) == AppendMissing(final, merged)
    {
      assert merged[i..][1..] == merged[i + 1..];
      if FirstWithId(r, merged[i].id).None? {
        r := r + [merged[i]];
      }
      i := i + 1;
    }
    assert merged[|merged|..] == [];
  }

  // ---------------------------------------------------------------------
  // The streaming clean-up of `sendMessage.rejected`
  // ---------------------------------------------------------------------

  /** The chats streaming under `target`: the entries the clean-up deletes. */
  function StreamsOf(byChat: map<string, string>, target: Option<string>): (r: set<string>)
    ensures forall c :: c in r <==> c in byChat && target.Some? && byChat[c] == target.value
  {
    set c | c in byChat && target.Some? && byChat[c] == target.value
  }

  /**
   * The id the clean-up loop compares each chat's streaming id with, as
   * written: it reads `state.streamingMessageId` after a truthy id has
   * already been set to `null`, so it only ever sees `null` or "".
   */
  function CleanupTargetAsWritten(streamingMessageId: Option<string>): (r: Option<string>)
    ensures Truthy(streamingMessageId) ==> r.None?
    ensures !Truthy(streamingMessageId) ==> r == streamingMessageId
  {
    if Truthy(streamingMessageId) then None else streamingMessageId
  }

  /** As written, a failed send whose stream is registered under a chat leaves that chat's entry behind. */
  lemma RejectedStreamSurvivesAsWritten()
    ensures var byChat := map["chat-1" := "msg-1"];
      && StreamsOf(byChat, CleanupTargetAsWritten(Some("msg-1"))) == {}
      && byChat - StreamsOf(byChat, CleanupTargetAsWritten(Some("msg-1"))) == byChat
      && byChat["chat-1"] == "msg-1"
  {
  }

  /**
   * With the id the failed send had as the target, no chat streams under it
   * afterwards, and every chat streaming something else keeps its entry.
   */
  lemma CleanupRemovesFailedStream(byChat: map<string, string>, failed: string)
    ensures var r := byChat - StreamsOf(byChat, Some(failed));
      && (forall c :: c in r ==> r[c] != failed)
      && (forall c :: c in byChat && byChat[c] != failed ==> c in r && r[c] == byChat[c])
  {
  }

  // ---------------------------------------------------------------------
  // The slice state and its reducers
  // ---------------------------------------------------------------------

  /** The parts of the messages slice these reducers touch; `null` is `None`. */
  class MessagesState {
    var messagesByChatId: map<string, seq<Message>>
    var streamingByChatId: map<string, string>
    var pausedStreaming: map<string, bool>
    var streamingMessageId: Option<string>
    var loading: bool
    var error: Option<string>

    constructor ()
      ensures messagesByChatId == map[] && streamingByChatId == map[] && pausedStreaming == map[]
      ensures streamingMessageId == None && !loading && error == None
    {
      messagesByChatId := map[];
      streamingByChatId := map[];
      pausedStreaming := map[];
      streamingMessageId := None;
      loading := false;
      error := None;
    }

    /** The chat's list, or `[]` when the chat has none. */
    function CurrentOf(chatId: string): (r: seq<Message>)
      reads this
      ensures chatId !in messagesByChatId ==> r == []
    {
      if chatId in messagesByChatId then messagesByChatId[chatId] else []
    }

    /** The chat's streaming id, absent when the chat has none. */
    function StreamingIdOf(chatId: string): (r: Option<string>)
      reads this
      ensures r.Some? <==> chatId in streamingByChatId
    {
      if chatId in streamingByChatId then Some(streamingByChatId[chatId]) else None
    }

    /** `fetchMessages.pending` and `sendMessage.pending`. */
    method Pending()
      modifies this
      ensures loading && error == None
      ensures messagesByChatId == old(messagesByChatId) && streamingByChatId == old(streamingByChatId)
      ensures pausedStreaming == old(pausedStreaming) && streamingMessageId == old(streamingMessageId)
    {
      loading := true;
      error := None;
    }

    /**
     * `fetchMessages.fulfilled`: the chat's list becomes the reconciliation of
     * its previous list with the snapshot; nothing else but `loading` changes.
     */
    method FetchFulfilled(chatId: string, fetched: seq<Message>)
      modifies this
      ensures messagesByChatId == old(messagesByChatId)[chatId := Reconcile(old(CurrentOf(chatId)), fetched, old(StreamingIdOf(chatId)))]
      ensures !loading && error == old(error)
      ensures streamingByChatId == old(streamingByChatId) && pausedStreaming == old(pausedStreaming)
      ensures streamingMessageId == old(streamingMessageId)
    {
      var current := CurrentOf(chatId);
      var streamingId := StreamingIdOf(chatId);
      loading := false;
      var merged := MergeSnapshot(current, fetched);
      merged := PatchStreaming(merged, current, streamingId);
      var final := ResolveSnapshot(fetched, merged);
      final := PushMissing(final, merged);
      assert final == PreSort(current, fetched, streamingId);
      messagesByChatId := messagesByChatId[chatId := SortByTimestamp(final)];
    }

    /** `fetchMessages.rejected`: lists untouched, error is the message or the default. */
    method FetchRejected(message: Option<string>)
      modifies this
      ensures !loading
      ensures error == Some(if Truthy(message) then message.value else "Failed to fetch messages")
      ensures messagesByChatId == old(messagesByChatId) && streamingByChatId == old(streamingByChatId)
      ensures pausedStreaming == old(pausedStreaming) && streamingMessageId == old(streamingMessageId)
    {
      loading := false;
      error := Some(if Truthy(message) then message.value else "Failed to fetch messages");
    }

    /** `sendMessage.fulfilled`: only `loading` changes. */
    method SendFulfilled()
      modifies this
      ensures !loading && error == old(error)
      ensures messagesByChatId == old(messagesByChatId) && streamingByChatId == old(streamingByChatId)
      ensures pausedStreaming == old(pausedStreaming) && streamingMessageId == old(streamingMessageId)
    {
      loading := false;
    }

    /**
     * `sendMessage.rejected` as written: the global streaming id is cleared
     * when truthy, and only then does the clean-up loop read it, so it
     * compares each chat's streaming id with `CleanupTargetAsWritten` of the
     * old id. A truthy id therefore deletes nothing; the intended clean-up is
     * `CleanupRemovesFailedStream`.
     */
    method SendRejected(message: Option<string>)
      modifies this
      ensures !loading
      ensures error == Some(if Truthy(message) then message.value else "Failed to send message")
      ensures messagesByChatId == old(messagesByChatId)
      ensures streamingMessageId == CleanupTargetAsWritten(old(streamingMessageId))
      ensures streamingByChatId == old(streamingByChatId) - StreamsOf(old(streamingByChatId), CleanupTargetAsWritten(old(streamingMessageId)))
      ensures pausedStreaming == old(pausedStreaming) - StreamsOf(old(streamingByChatId), CleanupTargetAsWritten(old(streamingMessageId)))
      ensures Truthy(old(streamingMessageId)) ==> streamingByChatId == old(streamingByChatId) && pausedStreaming == old(pausedStreaming)
    {
      loading := false;
      error := Some(if Truthy(message) then message.value else "Failed to send message");
      if Truthy(streamingMessageId) {
        streamingMessageId := None;
      }
      var gone := StreamsOf(streamingByChatId, streamingMessageId);
      streamingByChatId := streamingByChatId - gone;
      pausedStreaming := pausedStreaming - gone;
    }
  }
}

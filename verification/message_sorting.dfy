/**
 * `sortMessages`: the display order of a chat. Messages are sorted by
 * timestamp; a `tool_call` message whose `assistantMessageId` names an
 * assistant message of the list is taken out of its timestamp position and
 * placed, with its siblings in timestamp order, right after that assistant
 * message. Every other message (users, assistants, `tool` results, tool calls
 * without a known assistant) keeps its timestamp position. The input is a
 * value, so it is never changed.
 */
module MessageSorting {
  import opened Common
  import opened ChatTypes
  import opened MessageOrder

  /** Ids of the assistant messages in `all`. */
  function AssistantIds(all: seq<Message>): set<string>
  {
    set m | m in all && m.role == Assistant :: m.id
  }

  predicate IsToolCallUnder(m: Message, parents: set<string>)
  {
    m.role == ToolCallRole && m.assistantMessageId.Some? && m.assistantMessageId.value in parents
  }

  /** A tool call shown under its assistant message rather than at its own timestamp. */
  predicate IsGrouped(m: Message, all: seq<Message>)
  {
    IsToolCallUnder(m, AssistantIds(all))
  }

  /** The tool calls of `s` whose assistant is one of `parents`, in their order in `s`. */
  function ToolCallsUnder(s: seq<Message>, parents: set<string>): (r: seq<Message>)
    ensures forall k :: 0 <= k < |r| ==> IsToolCallUnder(r[k], parents) && r[k] in s
  {
    if s == [] then []
    else if IsToolCallUnder(s[0], parents) then [s[0]] + ToolCallsUnder(s[1..], parents)
    else ToolCallsUnder(s[1..], parents)
  }

  /** The messages of `s` that are not tool calls of one of `parents`. */
  function Ungrouped(s: seq<Message>, parents: set<string>): (r: seq<Message>)
    ensures forall k :: 0 <= k < |r| ==> !IsToolCallUnder(r[k], parents) && r[k] in s
  {
    if s == [] then []
    else if IsToolCallUnder(s[0], parents) then Ungrouped(s[1..], parents)
    else [s[0]] + Ungrouped(s[1..], parents)
  }

  /** The tool calls of `s` made by assistant message `id`. */
  function ToolCallsOf(s: seq<Message>, id: string): seq<Message>
  {
    ToolCallsUnder(s, {id})
  }

  /**
   * Walks `rest` (a suffix of the sorted list `all`): grouped tool calls are
   * skipped, and each assistant message is followed by its tool calls.
   */
  function Layout(rest: seq<Message>, all: seq<Message>): seq<Message>
  {
    if rest == [] then []
    else if IsGrouped(rest[0], all) then Layout(rest[1..], all)
    else if rest[0].role == Assistant then [rest[0]] + ToolCallsOf(all, rest[0].id) + Layout(rest[1..], all)
    else [rest[0]] + Layout(rest[1..], all)
  }

  /** `sortMessages(messages)`. */
  function SortMessages(messages: seq<Message>): seq<Message>
  {
    var sorted := SortByTimestamp(messages);
    Layout(sorted, sorted)
  }

  // ---------------------------------------------------------------- filters

  lemma {:induction false} UngroupedAppend(a: seq<Message>, b: seq<Message>, parents: set<string>)
    ensures Ungrouped(a + b, parents) == Ungrouped(a, parents) + Ungrouped(b, parents)
  {
    if a == [] {
      assert a + b == b;
    } else {
      var ab := a + b;
      var a1 := a[1..];
      ConsAppend(a, b);
      UngroupedAppend(a1, b, parents);
      UngroupedCons(ab, parents);
      UngroupedCons(a, parents);
      var head := if IsToolCallUnder(a[0], parents) then [] else [a[0]];
      calc {
        Ungrouped(ab, parents);
        head + Ungrouped(a1 + b, parents);
        head + (Ungrouped(a1, parents) + Ungrouped(b, parents));
        { SeqAssoc(head, Ungrouped(a1, parents), Ungrouped(b, parents)); }
        (head + Ungrouped(a1, parents)) + Ungrouped(b, parents);
        Ungrouped(a, parents) + Ungrouped(b, parents);
      }
    }
  }

  lemma UngroupedCons(s: seq<Message>, parents: set<string>)
    requires s != []
    ensures Ungrouped(s, parents) == (if IsToolCallUnder(s[0], parents) then [] else [s[0]]) + Ungrouped(s[1..], parents)
  {
    if IsToolCallUnder(s[0], parents) {
      assert [] + Ungrouped(s[1..], parents) == Ungrouped(s[1..], parents);
    }
  }

  lemma {:induction false} UngroupedOfToolCalls(s: seq<Message>, parents: set<string>)
    requires forall k :: 0 <= k < |s| ==> IsToolCallUnder(s[k], parents)
    ensures Ungrouped(s, parents) == []
  {
    if s != [] {
      UngroupedOfToolCalls(s[1..], parents);
    }
  }

  lemma {:induction false} UngroupedOfNone(s: seq<Message>, parents: set<string>)
    requires forall k :: 0 <= k < |s| ==> !IsToolCallUnder(s[k], parents)
    ensures Ungrouped(s, parents) == s
  {
    if s != [] {
      UngroupedOfNone(s[1..], parents);
    }
  }

  /** The two filters split a list: together they hold every message exactly as often. */
  lemma {:induction false} FiltersSplit(s: seq<Message>, parents: set<string>)
    ensures multiset(Ungrouped(s, parents)) + multiset(ToolCallsUnder(s, parents)) == multiset(s)
  {
    if s != [] {
      FiltersSplit(s[1..], parents);
      assert s == [s[0]] + s[1..];
    }
  }

  /** Tool calls under `{id} + parents` are those of `id` and those under `parents`. */
  lemma {:induction false} ToolCallsUnderUnion(s: seq<Message>, id: string, parents: set<string>)
    requires id !in parents
    ensures multiset(ToolCallsUnder(s, {id} + parents))
      == multiset(ToolCallsOf(s, id)) + multiset(ToolCallsUnder(s, parents))
  {
    if s != [] {
      ToolCallsUnderUnion(s[1..], id, parents);
    }
  }

  /** How often a message occurs among the tool calls of `s` under `parents`. */
  lemma {:induction false} ToolCallsUnderCount(s: seq<Message>, parents: set<string>, x: Message)
    ensures multiset(ToolCallsUnder(s, parents))[x] == if IsToolCallUnder(x, parents) then multiset(s)[x] else 0
  {
    if s != [] {
      ToolCallsUnderCount(s[1..], parents, x);
      assert s == [s[0]] + s[1..];
    }
  }

  lemma {:induction false} ToolCallsUnderOfSorted(s: seq<Message>, parents: set<string>)
    requires SortedByTimestamp(s)
    ensures SortedByTimestamp(ToolCallsUnder(s, parents))
  {
    if s != [] {
      ToolCallsUnderOfSorted(s[1..], parents);
      var t := ToolCallsUnder(s[1..], parents);
      forall k | 0 <= k < |t| ensures s[0].timestamp <= t[k].timestamp {
        var p :| 0 <= p < |s[1..]| && s[1..][p] == t[k];
        assert s[p + 1] == t[k];
      }
    }
  }

  lemma {:induction false} UngroupedOfSorted(s: seq<Message>, parents: set<string>)
    requires SortedByTimestamp(s)
    ensures SortedByTimestamp(Ungrouped(s, parents))
  {
    if s != [] {
      UngroupedOfSorted(s[1..], parents);
      var t := Ungrouped(s[1..], parents);
      forall k | 0 <= k < |t| ensures s[0].timestamp <= t[k].timestamp {
        var p :| 0 <= p < |s[1..]| && s[1..][p] == t[k];
        assert s[p + 1] == t[k];
      }
    }
  }

  lemma {:induction false} ToolCallsOfNone(s: seq<Message>, id: string)
    requires forall k :: 0 <= k < |s| ==> s[k].role != ToolCallRole
    ensures ToolCallsOf(s, id) == []
  {
    if s != [] {
      ToolCallsOfNone(s[1..], id);
    }
  }

  lemma SameMessagesSameAssistants(a: seq<Message>, b: seq<Message>)
    requires multiset(a) == multiset(b)
    ensures AssistantIds(a) == AssistantIds(b)
  {
    assert forall m :: m in a <==> m in multiset(a);
    assert forall m :: m in b <==> m in multiset(b);
  }

  // ----------------------------------------------------------- permutation

  lemma {:induction false} AssistantIdsOfCons(s: seq<Message>)
    requires s != []
    ensures AssistantIds(s) == (if s[0].role == Assistant then {s[0].id} else {}) + AssistantIds(s[1..])
  {
    assert forall m :: m in s <==> m == s[0] || m in s[1..];
  }

  lemma {:induction false} ToolCallsUnderNothing(s: seq<Message>)
    ensures ToolCallsUnder(s, {}) == []
  {
    if s != [] {
      ToolCallsUnderNothing(s[1..]);
    }
  }

  lemma {:induction false} LayoutMultiset(rest: seq<Message>, all: seq<Message>)
    requires UniqueIds(rest)
    ensures multiset(Layout(rest, all))
      == multiset(Ungrouped(rest, AssistantIds(all))) + multiset(ToolCallsUnder(all, AssistantIds(rest)))
  {
    var groups := AssistantIds(all);
    if rest == [] {
      assert AssistantIds(rest) == {};
      ToolCallsUnderNothing(all);
    } else {
      var r0, tail := rest[0], rest[1..];
      var below := multiset(Ungrouped(tail, groups)) + multiset(ToolCallsUnder(all, AssistantIds(tail)));
      LayoutMultiset(tail, all);
      assert multiset(Layout(tail, all)) == below;
      AssistantIdsOfCons(rest);
      if IsGrouped(r0, all) {
        assert Layout(rest, all) == Layout(tail, all);
        assert Ungrouped(rest, groups) == Ungrouped(tail, groups);
        assert AssistantIds(rest) == AssistantIds(tail);
      } else if r0.role == Assistant {
        var c0 := ToolCallsOf(all, r0.id);
        assert r0.id !in AssistantIds(tail);
        ToolCallsUnderUnion(all, r0.id, AssistantIds(tail));
        assert AssistantIds(rest) == {r0.id} + AssistantIds(tail);
        assert Layout(rest, all) == [r0] + c0 + Layout(tail, all);
        assert multiset(Layout(rest, all)) == multiset{r0} + multiset(c0) + below;
        assert Ungrouped(rest, groups) == [r0] + Ungrouped(tail, groups);
      } else {
        assert Layout(rest, all) == [r0] + Layout(tail, all);
        assert Ungrouped(rest, groups) == [r0] + Ungrouped(tail, groups);
        assert AssistantIds(rest) == AssistantIds(tail);
      }
    }
  }

  /** Given unique ids, the output holds exactly the input messages: same length, nothing lost or repeated. */
  lemma SortMessagesIsPermutation(messages: seq<Message>)
    requires UniqueIds(messages)
    ensures multiset(SortMessages(messages)) == multiset(messages)
    ensures |SortMessages(messages)| == |messages|
    ensures UniqueIds(SortMessages(messages))
  {
    var sorted := SortByTimestamp(messages);
    PermutationKeepsUniqueIds(messages, sorted);
    LayoutMultiset(sorted, sorted);
    FiltersSplit(sorted, AssistantIds(sorted));
    PermutationKeepsUniqueIds(messages, SortMessages(messages));
    assert |SortMessages(messages)| == |multiset(SortMessages(messages))| == |multiset(messages)| == |messages|;
  }

  /** Every message of the input, `role: 'tool'` results included, is in the output. */
  lemma SortMessagesKeepsEveryMessage(messages: seq<Message>, m: Message)
    requires UniqueIds(messages) && m in messages
    ensures m in SortMessages(messages)
  {
    SortMessagesIsPermutation(messages);
    assert m in multiset(messages);
  }

  // ------------------------------------------------------- assistant blocks

  /** `block` comes right after position `k` of `r`. */
  predicate FollowedBy(r: seq<Message>, k: nat, block: seq<Message>)
  {
    k + 1 + |block| <= |r| && r[k + 1..k + 1 + |block|] == block
  }

  lemma SliceOfAppend(a: seq<Message>, b: seq<Message>, i: nat, j: nat)
    requires |a| <= i <= j <= |a| + |b|
    ensures (a + b)[i..j] == b[i - |a|..j - |a|]
  {
  }

  /** What `Layout` emits for one message of the walk. */
  function Lead(m: Message, all: seq<Message>): (r: seq<Message>)
    ensures IsGrouped(m, all) ==> r == []
    ensures !IsGrouped(m, all) && m.role == Assistant ==> r == [m] + ToolCallsOf(all, m.id)
    ensures !IsGrouped(m, all) && m.role != Assistant ==> r == [m]
  {
    if IsGrouped(m, all) then [] else if m.role == Assistant then [m] + ToolCallsOf(all, m.id) else [m]
  }

  lemma LayoutCons(rest: seq<Message>, all: seq<Message>)
    requires rest != []
    ensures Layout(rest, all) == Lead(rest[0], all) + Layout(rest[1..], all)
  {
  }

  /** Within what one message emits, an assistant message comes first and is followed by its tool calls. */
  lemma LeadAssistantBlock(m: Message, all: seq<Message>, k: nat)
    requires k < |Lead(m, all)| && Lead(m, all)[k].role == Assistant
    ensures k == 0 && Lead(m, all) == [Lead(m, all)[0]] + ToolCallsOf(all, Lead(m, all)[0].id)
  {
  }

  lemma {:induction false} LayoutAssistantBlock(rest: seq<Message>, all: seq<Message>, k: nat)
    requires k < |Layout(rest, all)| && Layout(rest, all)[k].role == Assistant
    ensures FollowedBy(Layout(rest, all), k, ToolCallsOf(all, Layout(rest, all)[k].id))
  {
    var r := Layout(rest, all);
    LayoutCons(rest, all);
    var prefix := Lead(rest[0], all);
    var lt := Layout(rest[1..], all);
    assert r == prefix + lt;
    if k >= |prefix| {
      var j := k - |prefix|;
      assert r[k] == lt[j];
      LayoutAssistantBlock(rest[1..], all, j);
      var block := ToolCallsOf(all, lt[j].id);
      BlockShifts(prefix, lt, j, block);
    } else {
      assert r[k] == prefix[k];
      LeadAssistantBlock(rest[0], all, k);
      BlockAtFront(prefix, lt, all);
      assert r[k] == prefix[0];
    }
  }

  /** A block found in the later part is found, shifted, in the whole. */
  lemma BlockShifts(prefix: seq<Message>, lt: seq<Message>, j: nat, block: seq<Message>)
    requires FollowedBy(lt, j, block)
    ensures FollowedBy(prefix + lt, |prefix| + j, block)
  {
    SliceOfAppend(prefix, lt, |prefix| + j + 1, |prefix| + j + 1 + |block|);
  }

  /** An assistant block at the front of the whole. */
  lemma BlockAtFront(prefix: seq<Message>, lt: seq<Message>, all: seq<Message>)
    requires prefix != [] && prefix == [prefix[0]] + ToolCallsOf(all, prefix[0].id)
    ensures FollowedBy(prefix + lt, 0, ToolCallsOf(all, prefix[0].id))
  {
    var block := ToolCallsOf(all, prefix[0].id);
    assert (prefix + lt)[1..1 + |block|] == prefix[1..];
  }

  /**
   * `block` follows position `k` of `r` immediately: tool calls naming the
   * message at `k`, in ascending timestamp order.
   */
  predicate BlockAt(r: seq<Message>, k: nat, block: seq<Message>)
    requires k < |r|
  {
    && FollowedBy(r, k, block)
    && (forall j :: 0 <= j < |block| ==> block[j].role == ToolCallRole && block[j].assistantMessageId == Some(r[k].id))
    && SortedByTimestamp(block)
  }

  /**
   * Each assistant message is followed immediately by its own tool calls and
   * nothing else in between: all of them (the input's tool calls naming it,
   * counted with multiplicity), in ascending timestamp order.
   */
  lemma AssistantFollowedByItsToolCalls(messages: seq<Message>, k: nat)
    requires k < |SortMessages(messages)| && SortMessages(messages)[k].role == Assistant
    ensures var r := SortMessages(messages);
      BlockAt(r, k, ToolCallsOf(SortByTimestamp(messages), r[k].id))
      && multiset(ToolCallsOf(SortByTimestamp(messages), r[k].id)) == multiset(ToolCallsOf(messages, r[k].id))
  {
    SortIsSorted(messages);
    LaidOutBlock(messages, SortByTimestamp(messages), SortMessages(messages), k);
  }

  /**
   * In the layout of a sorted rearrangement of `messages`, an assistant
   * message is followed by its tool calls, sorted, and they are those of `messages`.
   */
  lemma LaidOutBlock(messages: seq<Message>, sorted: seq<Message>, r: seq<Message>, k: nat)
    requires SortedByTimestamp(sorted) && multiset(sorted) == multiset(messages)
    requires r == Layout(sorted, sorted) && k < |r| && r[k].role == Assistant
    ensures BlockAt(r, k, ToolCallsOf(sorted, r[k].id))
    ensures multiset(ToolCallsOf(sorted, r[k].id)) == multiset(ToolCallsOf(messages, r[k].id))
  {
    var id := r[k].id;
    ToolCallsOfPermutation(sorted, messages, id);
    LayoutAssistantBlock(sorted, sorted, k);
    var block := ToolCallsOf(sorted, id);
    assert forall j :: 0 <= j < |block| ==> IsToolCallUnder(block[j], {id});
    ToolCallsUnderOfSorted(sorted, {id});
  }

  /** Rearranging a list does not change which tool calls it holds for an assistant, counted with multiplicity. */
  lemma ToolCallsOfPermutation(a: seq<Message>, b: seq<Message>, id: string)
    requires multiset(a) == multiset(b)
    ensures multiset(ToolCallsOf(a, id)) == multiset(ToolCallsOf(b, id))
  {
    forall x ensures multiset(ToolCallsOf(a, id))[x] == multiset(ToolCallsOf(b, id))[x] {
      ToolCallsUnderCount(a, {id}, x);
      ToolCallsUnderCount(b, {id}, x);
    }
  }

  // ------------------------------------------------ ungrouped messages

  lemma {:induction false} LayoutUngrouped(rest: seq<Message>, all: seq<Message>)
    requires forall m :: m in rest ==> m in all
    ensures Ungrouped(Layout(rest, all), AssistantIds(all)) == Ungrouped(rest, AssistantIds(all))
  {
    var groups := AssistantIds(all);
    if rest != [] {
      var r0, tail := rest[0], rest[1..];
      LayoutUngrouped(tail, all);
      if IsGrouped(r0, all) {
      } else if r0.role == Assistant {
        var c0 := ToolCallsOf(all, r0.id);
        assert r0.id in groups;
        UngroupedOfToolCalls(c0, groups);
        UngroupedAppend([r0] + c0, Layout(tail, all), groups);
        UngroupedAppend([r0], c0, groups);
      } else {
        UngroupedAppend([r0], Layout(tail, all), groups);
      }
    }
  }

  /**
   * Messages that are not grouped under an assistant, including tool calls
   * without a known assistant, appear in the output exactly as in a plain
   * timestamp sort: in ascending timestamp order, ties in input order.
   */
  lemma UngroupedKeepTimestampOrder(messages: seq<Message>)
    ensures var groups := AssistantIds(messages);
      Ungrouped(SortMessages(messages), groups) == Ungrouped(SortByTimestamp(messages), groups)
    ensures SortedByTimestamp(Ungrouped(SortMessages(messages), AssistantIds(messages)))
  {
    var sorted := SortByTimestamp(messages);
    SameMessagesSameAssistants(messages, sorted);
    assert forall m :: m in sorted ==> m in sorted;
    LayoutUngrouped(sorted, sorted);
    SortIsSorted(messages);
    UngroupedOfSorted(sorted, AssistantIds(messages));
  }

  /** Without tool calls the order is the plain timestamp order. */
  lemma WithoutToolCallsIsTimestampOrder(messages: seq<Message>)
    requires forall k :: 0 <= k < |messages| ==> messages[k].role != ToolCallRole
    ensures SortMessages(messages) == SortByTimestamp(messages)
    ensures SortedByTimestamp(SortMessages(messages))
  {
    var sorted := SortByTimestamp(messages);
    forall k | 0 <= k < |sorted| ensures sorted[k].role != ToolCallRole {
      assert sorted[k] in multiset(messages);
    }
    LayoutWithoutToolCalls(sorted, sorted);
    SortIsSorted(messages);
  }

  lemma {:induction false} LayoutWithoutToolCalls(rest: seq<Message>, all: seq<Message>)
    requires forall k :: 0 <= k < |rest| ==> rest[k].role != ToolCallRole
    requires forall k :: 0 <= k < |all| ==> all[k].role != ToolCallRole
    ensures Layout(rest, all) == rest
  {
    if rest != [] {
      LayoutWithoutToolCalls(rest[1..], all);
      if rest[0].role == Assistant {
        ToolCallsOfNone(all, rest[0].id);
      }
    }
  }

  lemma SortMessagesOfEmpty()
    ensures SortMessages([]) == []
  {
  }
}

/**
 * Ordering of messages by timestamp. `Array.prototype.sort` with the
 * comparator `a.timestamp - b.timestamp` is stable, so it is modelled as an
 * insertion sort that places each message after every earlier one with a
 * timestamp not greater than its own.
 */
module MessageOrder {
  import opened ChatTypes

  predicate SortedByTimestamp(s: seq<Message>)
  {
    forall i, j :: 0 <= i < j < |s| ==> s[i].timestamp <= s[j].timestamp
  }

  /** Inserts `x` before the first message that is strictly later than it. */
  function InsertByTimestamp(x: Message, s: seq<Message>): (r: seq<Message>)
    ensures |r| == |s| + 1
    ensures multiset(r) == multiset(s) + multiset{x}
    ensures forall k :: 0 <= k < |r| ==> r[k] == x || r[k] in s
  {
    if s == [] then [x]
    else if x.timestamp < s[0].timestamp then [x] + s
    else
      assert s == [s[0]] + s[1..];
      [s[0]] + InsertByTimestamp(x, s[1..])
  }

  lemma {:induction false} InsertKeepsSorted(x: Message, s: seq<Message>)
    requires SortedByTimestamp(s)
    ensures SortedByTimestamp(InsertByTimestamp(x, s))
  {
    if s != [] && x.timestamp >= s[0].timestamp {
      InsertKeepsSorted(x, s[1..]);
      var r := InsertByTimestamp(x, s);
      var t := InsertByTimestamp(x, s[1..]);
      assert r == [s[0]] + t;
      forall j | 0 <= j < |t| ensures s[0].timestamp <= t[j].timestamp {
        if t[j] != x {
          var p :| 0 <= p < |s[1..]| && s[1..][p] == t[j];
          assert s[p + 1] == t[j];
        }
      }
    }
  }

  /** The stored order: a stable sort by ascending timestamp. */
  function SortByTimestamp(s: seq<Message>): (r: seq<Message>)
    ensures |r| == |s|
    ensures multiset(r) == multiset(s)
  {
    if s == [] then []
    else
      var init := s[..|s| - 1];
      assert s == init + [s[|s| - 1]];
      InsertByTimestamp(s[|s| - 1], SortByTimestamp(init))
  }

  lemma {:induction false} SortIsSorted(s: seq<Message>)
    ensures SortedByTimestamp(SortByTimestamp(s))
  {
    if s != [] {
      SortIsSorted(s[..|s| - 1]);
      InsertKeepsSorted(s[|s| - 1], SortByTimestamp(s[..|s| - 1]));
    }
  }

  /** The messages of `s` stamped `t`, in their order in `s`. */
  function AtTime(s: seq<Message>, t: int): (r: seq<Message>)
    ensures forall k :: 0 <= k < |r| ==> r[k].timestamp == t
  {
    if s == [] then []
    else (if s[0].timestamp == t then [s[0]] else []) + AtTime(s[1..], t)
  }

  lemma {:induction false} AtTimeAppend(a: seq<Message>, b: seq<Message>, t: int)
    ensures AtTime(a + b, t) == AtTime(a, t) + AtTime(b, t)
  {
    if a != [] {
      var head := if a[0].timestamp == t then [a[0]] else [];
      calc {
        AtTime(a + b, t);
        { assert (a + b)[0] == a[0]; }
        head + AtTime((a + b)[1..], t);
        { assert (a + b)[1..] == a[1..] + b; }
        head + AtTime(a[1..] + b, t);
        { AtTimeAppend(a[1..], b, t); }
        head + (AtTime(a[1..], t) + AtTime(b, t));
      }
    } else {
      assert a + b == b;
    }
  }

  lemma {:induction false} AtTimeOfLater(s: seq<Message>, t: int)
    requires forall k :: 0 <= k < |s| ==> s[k].timestamp > t
    ensures AtTime(s, t) == []
  {
    if s != [] {
      AtTimeOfLater(s[1..], t);
    }
  }

  lemma {:induction false} InsertAtTime(x: Message, s: seq<Message>, t: int)
    requires SortedByTimestamp(s)
    ensures AtTime(InsertByTimestamp(x, s), t) == AtTime(s, t) + (if x.timestamp == t then [x] else [])
  {
    var tail := if x.timestamp == t then [x] else [];
    AtTimeSingle(x, t);
    if s == [] {
      assert InsertByTimestamp(x, s) == [x];
    } else if x.timestamp < s[0].timestamp {
      assert InsertByTimestamp(x, s) == [x] + s;
      AtTimeAppend([x], s, t);
      if x.timestamp == t {
        assert forall k :: 0 <= k < |s| ==> s[0].timestamp <= s[k].timestamp;
        AtTimeOfLater(s, t);
      }
    } else {
      var head := if s[0].timestamp == t then [s[0]] else [];
      var rest := InsertByTimestamp(x, s[1..]);
      assert SortedByTimestamp(s[1..]) by {
        forall i, j | 0 <= i < j < |s[1..]| ensures s[1..][i].timestamp <= s[1..][j].timestamp {
          assert s[1..][i] == s[i + 1] && s[1..][j] == s[j + 1];
        }
      }
      AtTimeSingle(s[0], t);
      calc {
        AtTime(InsertByTimestamp(x, s), t);
        AtTime([s[0]] + rest, t);
        { AtTimeAppend([s[0]], rest, t); }
        head + AtTime(rest, t);
        { InsertAtTime(x, s[1..], t); }
        head + (AtTime(s[1..], t) + tail);
        { assert s == [s[0]] + s[1..]; AtTimeAppend([s[0]], s[1..], t); }
        AtTime(s, t) + tail;
      }
    }
  }

  /**
   * Stability: for every timestamp, the messages carrying it keep their
   * relative order.
   */
  lemma {:induction false} SortIsStable(s: seq<Message>, t: int)
    ensures AtTime(SortByTimestamp(s), t) == AtTime(s, t)
  {
    if s != [] {
      var init, last := s[..|s| - 1], s[|s| - 1];
      var sortedInit := SortByTimestamp(init);
      var tail := if last.timestamp == t then [last] else [];
      calc {
        AtTime(SortByTimestamp(s), t);
        AtTime(InsertByTimestamp(last, sortedInit), t);
        { SortIsSorted(init); InsertAtTime(last, sortedInit, t); }
        AtTime(sortedInit, t) + tail;
        { SortIsStable(init, t); }
        AtTime(init, t) + tail;
        { AtTimeSingle(last, t); AtTimeAppend(init, [last], t); }
        AtTime(init + [last], t);
        { assert init + [last] == s; }
        AtTime(s, t);
      }
    }
  }

  lemma AtTimeSingle(x: Message, t: int)
    ensures AtTime([x], t) == if x.timestamp == t then [x] else []
  {
    assert [x][1..] == [];
  }

  /** An already sorted list is left as it is. */
  lemma {:induction false} SortOfSorted(s: seq<Message>)
    requires SortedByTimestamp(s)
    ensures SortByTimestamp(s) == s
  {
    if s != [] {
      var init, last := s[..|s| - 1], s[|s| - 1];
      SortOfSorted(init);
      InsertAfterAll(last, init);
      assert init + [last] == s;
    }
  }

  lemma {:induction false} InsertAfterAll(x: Message, s: seq<Message>)
    requires forall k :: 0 <= k < |s| ==> s[k].timestamp <= x.timestamp
    ensures InsertByTimestamp(x, s) == s + [x]
  {
    if s != [] {
      InsertAfterAll(x, s[1..]);
      assert [s[0]] + (s[1..] + [x]) == s + [x];
    }
  }

  /** With unique ids, a message value occurs at most once. */
  lemma {:induction false} UniqueIdsOccurOnce(s: seq<Message>, x: Message)
    requires UniqueIds(s)
    ensures multiset(s)[x] <= 1
  {
    if s != [] {
      UniqueIdsOccurOnce(s[1..], x);
      assert s == [s[0]] + s[1..];
      if x == s[0] {
        assert x !in s[1..];
      }
    }
  }

  /** A rearrangement of a list with unique ids has unique ids. */
  lemma PermutationKeepsUniqueIds(a: seq<Message>, b: seq<Message>)
    requires multiset(a) == multiset(b) && UniqueIds(a)
    ensures UniqueIds(b)
  {
    forall i, j | 0 <= i < j < |b| ensures b[i].id != b[j].id {
      if b[i].id == b[j].id {
        assert b[i] in multiset(a) && b[j] in multiset(a);
        var p :| 0 <= p < |a| && a[p] == b[i];
        var q :| 0 <= q < |a| && a[q] == b[j];
        if b[i] == b[j] {
          assert b == b[..j] + b[j..];
          assert b[i] in b[..j] && b[j] in b[j..];
          assert multiset(b)[b[i]] >= 2;
          UniqueIdsOccurOnce(a, b[i]);
        }
      }
    }
  }
}

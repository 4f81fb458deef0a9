/**
 * The array methods the reducers use on their lists: `findIndex`, `filter`
 * and the replacement of one element by index.
 */
module Lists {
  import opened Common

  /** `list.findIndex(p)`, with `None` for -1. */
  function FindFirst<T>(list: seq<T>, p: T -> bool): (r: Option<nat>)
    ensures r.Some? ==> r.value < |list| && p(list[r.value])
    ensures r.Some? ==> forall k :: 0 <= k < r.value ==> !p(list[k])
    ensures r.None? <==> forall k :: 0 <= k < |list| ==> !p(list[k])
  {
    if list == [] then None
    else if p(list[0]) then Some(0)
    else
      var r := FindFirst(list[1..], p);
      assert forall k :: 1 <= k < |list| ==> list[k] == list[1..][k - 1];
      if r.Some? then Some(r.value + 1) else None
  }

  /** `list.filter(keep)`. */
  function Filter<T>(list: seq<T>, keep: T -> bool): (r: seq<T>)
    ensures |r| <= |list|
    ensures forall k :: 0 <= k < |r| ==> keep(r[k])
    ensures forall k :: 0 <= k < |r| ==> r[k] in list
  {
    if list == [] then []
    else
      var rest := Filter(list[..|list| - 1], keep);
      var last := list[|list| - 1];
      assert forall x :: x in list[..|list| - 1] ==> x in list;
      rest + (if keep(last) then [last] else [])
  }

  /** Every kept element is in the result, and kept elements stay in order. */
  lemma {:induction false} FilterKeepsOrder<T>(list: seq<T>, keep: T -> bool, i: nat, j: nat)
    requires i < j < |list| && keep(list[i]) && keep(list[j])
    ensures exists a, b :: 0 <= a < b < |Filter(list, keep)| && Filter(list, keep)[a] == list[i] && Filter(list, keep)[b] == list[j]
  {
    var init := list[..|list| - 1];
    if j < |list| - 1 {
      FilterKeepsOrder(init, keep, i, j);
      var a, b :| 0 <= a < b < |Filter(init, keep)| && Filter(init, keep)[a] == init[i] && Filter(init, keep)[b] == init[j];
      assert Filter(list, keep)[a] == list[i] && Filter(list, keep)[b] == list[j];
    } else {
      FilterKeeps(init, keep, i);
      var a :| 0 <= a < |Filter(init, keep)| && Filter(init, keep)[a] == init[i];
      var b := |Filter(init, keep)|;
      assert Filter(list, keep)[a] == list[i] && Filter(list, keep)[b] == list[j];
    }
  }

  /** Every element the predicate keeps reaches the result. */
  lemma {:induction false} FilterKeeps<T>(list: seq<T>, keep: T -> bool, i: nat)
    requires i < |list| && keep(list[i])
    ensures exists a :: 0 <= a < |Filter(list, keep)| && Filter(list, keep)[a] == list[i]
  {
    var init := list[..|list| - 1];
    if i < |list| - 1 {
      FilterKeeps(init, keep, i);
      var a :| 0 <= a < |Filter(init, keep)| && Filter(init, keep)[a] == init[i];
      assert Filter(list, keep)[a] == list[i];
    } else {
      assert Filter(list, keep)[|Filter(init, keep)|] == list[i];
    }
  }

  /** Every element the predicate keeps is a member of the result. */
  lemma FilterKeepsAll<T>(list: seq<T>, keep: T -> bool)
    ensures forall i :: 0 <= i < |list| && keep(list[i]) ==> list[i] in Filter(list, keep)
  {
    forall i | 0 <= i < |list| && keep(list[i])
      ensures list[i] in Filter(list, keep)
    {
      FilterKeeps(list, keep, i);
    }
  }

  /** A relation that holds between every earlier and later element still holds after filtering. */
  lemma {:induction false} FilterKeepsPairwise<T>(list: seq<T>, keep: T -> bool, before: (T, T) -> bool)
    requires forall a, b :: 0 <= a < b < |list| ==> before(list[a], list[b])
    ensures forall a, b :: 0 <= a < b < |Filter(list, keep)| ==> before(Filter(list, keep)[a], Filter(list, keep)[b])
  {
    if list != [] {
      var init, last := list[..|list| - 1], list[|list| - 1];
      FilterKeepsPairwise(init, keep, before);
      var rest := Filter(init, keep);
      if keep(last) {
        var r := Filter(list, keep);
        assert r == rest + [last];
        forall a, b | 0 <= a < b < |r|
          ensures before(r[a], r[b])
        {
          if b == |rest| {
            assert r[a] in init;
            var i :| 0 <= i < |init| && init[i] == r[a];
            assert before(list[i], list[|list| - 1]);
          } else {
            assert r[a] == rest[a] && r[b] == rest[b];
          }
        }
      }
    }
  }

  /** A filter that keeps everything changes nothing. */
  lemma {:induction false} FilterAll<T>(list: seq<T>, keep: T -> bool)
    requires forall k :: 0 <= k < |list| ==> keep(list[k])
    ensures Filter(list, keep) == list
  {
    if list != [] {
      FilterAll(list[..|list| - 1], keep);
      assert list == list[..|list| - 1] + [list[|list| - 1]];
    }
  }

  /** A filter that keeps nothing gives the empty list. */
  lemma {:induction false} FilterNone<T>(list: seq<T>, keep: T -> bool)
    requires forall k :: 0 <= k < |list| ==> !keep(list[k])
    ensures Filter(list, keep) == []
  {
    if list != [] {
      FilterNone(list[..|list| - 1], keep);
    }
  }

  /** `list[index] = f(list[index])` when an index was found; nothing otherwise. */
  function ReplaceAt<T>(list: seq<T>, index: Option<nat>, f: T -> T): (r: seq<T>)
    requires index.Some? ==> index.value < |list|
    ensures |r| == |list|
    ensures index.None? ==> r == list
    ensures index.Some? ==> r[index.value] == f(list[index.value])
    ensures forall k :: 0 <= k < |list| && (index.None? || k != index.value) ==> r[k] == list[k]
  {
    if index.Some? then list[index.value := f(list[index.value])] else list
  }

  /** Replacing the first element that `p` picks leaves every element `p` rejects as it was. */
  lemma ReplaceFirstOnlyTouchesMatch<T>(list: seq<T>, p: T -> bool, f: T -> T, k: nat)
    requires k < |list| && !p(list[k])
    ensures ReplaceAt(list, FindFirst(list, p), f)[k] == list[k]
  {
  }
}

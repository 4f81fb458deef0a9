/**
 * The HTTP headers editor of the connection settings: a JSON object text is
 * opened as editable rows, and every edit reports the rows that have both a
 * key and a value, trimmed, as one object (or `undefined` when there is
 * none). Rows are objects that key and value edits change in place.
 */
module HeadersEditor {
  import opened Common
  import opened JsValues

  /** One key/value row, as a value. */
  datatype Header = Header(key: string, value: string)

  /** `Object.entries(v)`; `null` and `undefined` make it throw, which the caller turns into no entries. */
  function Entries(v: JsValue): (r: seq<(string, JsValue)>)
    ensures v.Obj? ==> r == v.fields
    ensures v.Arr? ==> |r| == |v.items| && forall k :: 0 <= k < |r| ==> r[k] == (NatToString(k), v.items[k])
    ensures v.Str? ==> |r| == |v.s| && forall k :: 0 <= k < |r| ==> r[k] == (NatToString(k), Str([v.s[k]]))
    ensures v.Null? || v.Undefined? || v.Bool? || v.Num? ==> r == []
  {
    match v
    case Obj(fields) => fields
    case Arr(items) => seq(|items|, k requires 0 <= k < |items| => (NatToString(k), items[k]))
    case Str(s) => seq(|s|, k requires 0 <= k < |s| => (NatToString(k), Str([s[k]])))
    case _ => []
  }

  /**
   * `parseHeaders`: `parsed` is the result of `JSON.parse`, `None` when it
   * throws (invalid or empty text). Each entry becomes a row whose value is
   * passed through `String()`.
   */
  function ParseHeaders(parsed: Option<JsValue>): (r: seq<Header>)
    ensures parsed.None? ==> r == []
    ensures parsed.Some? ==> |r| == |Entries(parsed.value)|
    ensures parsed.Some? ==> forall k :: 0 <= k < |r| ==>
      r[k] == Header(Entries(parsed.value)[k].0, ToJsString(Entries(parsed.value)[k].1))
  {
    match parsed
    case None => []
    case Some(v) =>
      var es := Entries(v);
      seq(|es|, k requires 0 <= k < |es| => Header(es[k].0, ToJsString(es[k].1)))
  }

  /** A row reaches the output when key and value are both non-blank. */
  predicate IsValid(h: Header)
  {
    !AllSpace(h.key) && !AllSpace(h.value)
  }

  /** `h.key.trim() && h.value.trim()` is truthy exactly for the valid rows. */
  lemma IsValidIffTrimmedNonEmpty(h: Header)
    ensures IsValid(h) <==> Trim(h.key) != [] && Trim(h.value) != []
  {
    TrimEmptyIffAllSpace(h.key);
    TrimEmptyIffAllSpace(h.value);
  }

  /** `newHeaders.filter(h => h.key.trim() && h.value.trim())`. */
  function ValidRows(rows: seq<Header>): (r: seq<Header>)
    ensures |r| <= |rows|
    ensures forall k :: 0 <= k < |r| ==> IsValid(r[k])
    ensures r == [] <==> forall k :: 0 <= k < |rows| ==> !IsValid(rows[k])
  {
    if rows == [] then []
    else
      var init := rows[..|rows| - 1];
      var last := rows[|rows| - 1];
      assert rows == init + [last];
      ValidRows(init) + (if IsValid(last) then [last] else [])
  }

  /** The value stored under `key` in an object given by its entries. */
  function Get(obj: seq<(string, string)>, key: string): (r: Option<string>)
    ensures r.Some? ==> (key, r.value) in obj
    ensures r.None? <==> forall k :: 0 <= k < |obj| ==> obj[k].0 != key
  {
    if obj == [] then None
    else if obj[0].0 == key then Some(obj[0].1)
    else
      var r := Get(obj[1..], key);
      assert forall k :: 1 <= k < |obj| ==> obj[k] == obj[1..][k - 1];
      r
  }

  /** `acc[key] = value` on an object: an existing key keeps its place, a new key goes last. */
  function Assign(obj: seq<(string, string)>, key: string, value: string): (r: seq<(string, string)>)
    ensures forall k :: 0 <= k < |r| ==> r[k] == (key, value) || r[k] in obj
    ensures Get(obj, key).None? ==> r == obj + [(key, value)]
  {
    if obj == [] then [(key, value)]
    else if obj[0].0 == key then [(key, value)] + obj[1..]
    else
      var rest := Assign(obj[1..], key, value);
      assert Get(obj, key).None? ==> rest == obj[1..] + [(key, value)];
      assert Get(obj, key).None? ==> [obj[0]] + (obj[1..] + [(key, value)]) == obj + [(key, value)];
      [obj[0]] + rest
  }

  /** No key occurs twice. */
  predicate UniqueKeys(obj: seq<(string, string)>)
  {
    forall i, j :: 0 <= i < j < |obj| ==> obj[i].0 != obj[j].0
  }

  /** The `reduce` that builds the object from the valid rows, with trimmed keys and values. */
  function Collect(rows: seq<Header>): (r: seq<(string, string)>)
  {
    if rows == [] then []
    else
      var last := rows[|rows| - 1];
      Assign(Collect(rows[..|rows| - 1]), Trim(last.key), Trim(last.value))
  }

  /** What `onChange` receives: the object (before `JSON.stringify`), or `undefined` for no valid row. */
  function Output(rows: seq<Header>): (r: Option<seq<(string, string)>>)
    ensures r.None? <==> forall k :: 0 <= k < |rows| ==> !IsValid(rows[k])
  {
    var valid := ValidRows(rows);
    if valid == [] then None else Some(Collect(valid))
  }

  /** The value the last row with that trimmed key carries, trimmed. */
  function LastValueFor(rows: seq<Header>, key: string): (r: Option<string>)
  {
    if rows == [] then None
    else
      var last := rows[|rows| - 1];
      if Trim(last.key) == key then Some(Trim(last.value)) else LastValueFor(rows[..|rows| - 1], key)
  }

  lemma {:induction false} GetAssign(obj: seq<(string, string)>, key: string, value: string, other: string)
    ensures Get(Assign(obj, key, value), other) == if other == key then Some(value) else Get(obj, other)
  {
    if obj != [] && obj[0].0 != key {
      GetAssign(obj[1..], key, value, other);
    }
  }

  /** A later row with the same trimmed key wins. */
  lemma {:induction false} CollectGet(rows: seq<Header>, key: string)
    ensures Get(Collect(rows), key) == LastValueFor(rows, key)
  {
    if rows != [] {
      var last := rows[|rows| - 1];
      CollectGet(rows[..|rows| - 1], key);
      GetAssign(Collect(rows[..|rows| - 1]), Trim(last.key), Trim(last.value), key);
    }
  }

  lemma {:induction false} AssignKeepsUniqueKeys(obj: seq<(string, string)>, key: string, value: string)
    requires UniqueKeys(obj)
    ensures UniqueKeys(Assign(obj, key, value))
  {
    if obj != [] {
      var tail := obj[1..];
      assert UniqueKeys(tail) by {
        forall i, j | 0 <= i < j < |tail| ensures tail[i].0 != tail[j].0 {
          assert tail[i] == obj[i + 1] && tail[j] == obj[j + 1];
        }
      }
      if obj[0].0 == key {
        forall k | 0 <= k < |tail| ensures tail[k].0 != key {
          assert tail[k] == obj[k + 1];
        }
        ConsUniqueKeys((key, value), tail);
      } else {
        AssignKeepsUniqueKeys(tail, key, value);
        var rest := Assign(tail, key, value);
        forall k | 0 <= k < |rest|
          ensures rest[k].0 != obj[0].0
        {
          if rest[k] != (key, value) {
            var q :| 0 <= q < |tail| && tail[q] == rest[k];
            assert obj[q + 1] == rest[k];
          }
        }
        ConsUniqueKeys(obj[0], rest);
      }
    }
  }

  /** An entry in front of entries with other keys. */
  lemma ConsUniqueKeys(x: (string, string), rest: seq<(string, string)>)
    requires UniqueKeys(rest) && forall k :: 0 <= k < |rest| ==> rest[k].0 != x.0
    ensures UniqueKeys([x] + rest)
  {
    var whole := [x] + rest;
    forall i, j | 0 <= i < j < |whole| ensures whole[i].0 != whole[j].0 {
      assert whole[j] == rest[j - 1];
      if i > 0 {
        assert whole[i] == rest[i - 1];
      }
    }
  }

  /** The object never holds a key twice. */
  lemma {:induction false} CollectUniqueKeys(rows: seq<Header>)
    ensures UniqueKeys(Collect(rows))
  {
    if rows != [] {
      var last := rows[|rows| - 1];
      CollectUniqueKeys(rows[..|rows| - 1]);
      AssignKeepsUniqueKeys(Collect(rows[..|rows| - 1]), Trim(last.key), Trim(last.value));
    }
  }

  /** Text that is non-empty and already trimmed. */
  predicate Trimmed(s: string)
  {
    s != [] && Trim(s) == s
  }

  /** Every key and value written from valid rows is non-empty and trimmed. */
  lemma {:induction false} CollectTrimmed(rows: seq<Header>)
    requires forall k :: 0 <= k < |rows| ==> IsValid(rows[k])
    ensures forall k :: 0 <= k < |Collect(rows)| ==> Trimmed(Collect(rows)[k].0) && Trimmed(Collect(rows)[k].1)
  {
    if rows != [] {
      var init := rows[..|rows| - 1];
      var last := rows[|rows| - 1];
      assert forall k :: 0 <= k < |init| ==> init[k] == rows[k];
      CollectTrimmed(init);
      TrimIdempotent(last.key);
      TrimIdempotent(last.value);
    }
  }

  /** The output holds exactly the trimmed keys of the valid rows, each with the last such row's trimmed value. */
  lemma OutputContents(rows: seq<Header>, key: string)
    requires Output(rows).Some?
    ensures Get(Output(rows).value, key) == LastValueFor(ValidRows(rows), key)
    ensures UniqueKeys(Output(rows).value)
    ensures forall k :: 0 <= k < |Output(rows).value| ==> Trimmed(Output(rows).value[k].0) && Trimmed(Output(rows).value[k].1)
  {
    CollectGet(ValidRows(rows), key);
    CollectUniqueKeys(ValidRows(rows));
    CollectTrimmed(ValidRows(rows));
  }

  /** A row that is blank in key or value does not change the output. */
  lemma InvalidRowChangesNothing(rows: seq<Header>, h: Header)
    requires !IsValid(h)
    ensures Output(rows + [h]) == Output(rows)
  {
    var s := rows + [h];
    assert s[..|s| - 1] == rows;
    assert ValidRows(s) == ValidRows(rows);
  }

  /** The object as the `JSON.parse` of its `JSON.stringify` gives it back. */
  function AsJson(obj: seq<(string, string)>): (v: JsValue)
    ensures v.Obj? && |v.fields| == |obj|
    ensures forall k :: 0 <= k < |obj| ==> v.fields[k] == (obj[k].0, Str(obj[k].1))
  {
    Obj(seq(|obj|, k requires 0 <= k < |obj| => (obj[k].0, Str(obj[k].1))))
  }

  /** The rows an object opens as. */
  function AsRows(obj: seq<(string, string)>): (r: seq<Header>)
    ensures |r| == |obj| && forall k :: 0 <= k < |obj| ==> r[k] == Header(obj[k].0, obj[k].1)
  {
    seq(|obj|, k requires 0 <= k < |obj| => Header(obj[k].0, obj[k].1))
  }

  lemma {:induction false} CollectOfOwnRows(obj: seq<(string, string)>)
    requires UniqueKeys(obj)
    requires forall k :: 0 <= k < |obj| ==> Trimmed(obj[k].0) && Trimmed(obj[k].1)
    ensures Collect(AsRows(obj)) == obj
  {
    if obj != [] {
      var init := obj[..|obj| - 1];
      var last := obj[|obj| - 1];
      assert obj == init + [last];
      assert UniqueKeys(init) && forall k :: 0 <= k < |init| ==> Trimmed(init[k].0) && Trimmed(init[k].1) by {
        assert forall k :: 0 <= k < |init| ==> init[k] == obj[k];
      }
      CollectOfOwnRows(init);
      assert Get(init, last.0).None? by {
        assert forall k :: 0 <= k < |init| ==> init[k] == obj[k];
      }
      CollectStep(init, last);
    }
  }

  /** One more own row: a new trimmed key is appended to the object. */
  lemma CollectStep(init: seq<(string, string)>, last: (string, string))
    requires Collect(AsRows(init)) == init
    requires Trimmed(last.0) && Trimmed(last.1) && Get(init, last.0).None?
    ensures Collect(AsRows(init + [last])) == init + [last]
  {
    var rows := AsRows(init + [last]);
    assert rows[..|rows| - 1] == AsRows(init);
    assert rows[|rows| - 1] == Header(last.0, last.1);
  }

  /**
   * Re-opening the editor on what it reported shows one row per key, and
   * reporting those rows again gives the same object.
   */
  lemma ReopenRoundTrip(rows: seq<Header>)
    requires Output(rows).Some?
    ensures var obj := Output(rows).value;
      ParseHeaders(Some(AsJson(obj))) == AsRows(obj) && Output(AsRows(obj)) == Some(obj)
  {
    var obj := Output(rows).value;
    OutputContents(rows, "");
    OutputNonEmpty(rows);
    ReopenShowsEntries(obj);
    ReportOwnRows(obj);
  }

  /** Opening the editor on a stored object shows its entries as rows, in order. */
  lemma ReopenShowsEntries(obj: seq<(string, string)>)
    ensures ParseHeaders(Some(AsJson(obj))) == AsRows(obj)
  {
  }

  /** The rows of a non-empty object with unique, trimmed, non-empty keys and values report that object. */
  lemma ReportOwnRows(obj: seq<(string, string)>)
    requires obj != [] && UniqueKeys(obj)
    requires forall k :: 0 <= k < |obj| ==> Trimmed(obj[k].0) && Trimmed(obj[k].1)
    ensures Output(AsRows(obj)) == Some(obj)
  {
    CollectOfOwnRows(obj);
    ValidRowsOfValid(AsRows(obj));
  }

  /** A reported object has at least one entry. */
  lemma OutputNonEmpty(rows: seq<Header>)
    requires Output(rows).Some?
    ensures Output(rows).value != []
  {
    var v := ValidRows(rows);
    var last := v[|v| - 1];
    CollectGet(v, Trim(last.key));
  }

  lemma {:induction false} ValidRowsOfValid(rows: seq<Header>)
    requires forall k :: 0 <= k < |rows| ==> IsValid(rows[k])
    ensures ValidRows(rows) == rows
  {
    if rows != [] {
      var init, last := rows[..|rows| - 1], rows[|rows| - 1];
      assert IsValid(last);
      assert forall k :: 0 <= k < |init| ==> IsValid(init[k]) by {
        assert forall k :: 0 <= k < |init| ==> init[k] == rows[k];
      }
      ValidRowsOfValid(init);
      InitLast(rows);
      ValidRowsSnoc(init, last);
    }
  }

  /** Filtering a list with one more row filters the rest and then that row. */
  lemma ValidRowsSnoc(init: seq<Header>, last: Header)
    ensures ValidRows(init + [last]) == ValidRows(init) + (if IsValid(last) then [last] else [])
  {
    var rows := init + [last];
    assert rows[..|rows| - 1] == init;
  }

  /** `filter((_, i) => i !== index)`: an index outside the list removes nothing. */
  function RemoveAt<T>(s: seq<T>, index: int): (r: seq<T>)
    ensures 0 <= index < |s| ==> |r| == |s| - 1
    ensures 0 <= index < |s| ==> forall k :: 0 <= k < |r| ==> r[k] == if k < index then s[k] else s[k + 1]
    ensures !(0 <= index < |s|) ==> r == s
  {
    if 0 <= index < |s| then s[..index] + s[index + 1..] else s
  }

  /** A mutable row object. */
  class HeaderRow {
    var key: string
    var value: string

    constructor (key0: string, value0: string)
      ensures key == key0 && value == value0
    {
      key := key0;
      value := value0;
    }
  }

  /** The rows the row objects currently hold. */
  function RowsOf(hs: seq<HeaderRow>): (r: seq<Header>)
    reads hs
    ensures |r| == |hs| && forall k :: 0 <= k < |hs| ==> r[k] == Header(hs[k].key, hs[k].value)
  {
    if hs == [] then [] else [Header(hs[0].key, hs[0].value)] + RowsOf(hs[1..])
  }

  /** One more row object adds its row at the end. */
  lemma RowsOfSnoc(hs: seq<HeaderRow>, row: HeaderRow)
    ensures RowsOf(hs + [row]) == RowsOf(hs) + [Header(row.key, row.value)]
  {
    var whole := hs + [row];
    var expected := RowsOf(hs) + [Header(row.key, row.value)];
    assert forall k :: 0 <= k < |hs| ==> whole[k] == hs[k];
    assert forall k :: 0 <= k < |whole| ==> RowsOf(whole)[k] == expected[k];
  }

  /** A new row object at the end keeps the objects distinct and adds its row at the end. */
  lemma AddRow(hs: seq<HeaderRow>, row: HeaderRow)
    requires forall i, j :: 0 <= i < j < |hs| ==> hs[i] != hs[j]
    requires row !in hs
    ensures forall i, j :: 0 <= i < j < |hs + [row]| ==> (hs + [row])[i] != (hs + [row])[j]
    ensures RowsOf(hs + [row]) == RowsOf(hs) + [Header(row.key, row.value)]
  {
    RowsOfSnoc(hs, row);
    var whole := hs + [row];
    forall a, b | 0 <= a < b < |whole|
      ensures whole[a] != whole[b]
    {
      assert whole[a] == hs[a];
      if b == |hs| {
        assert whole[b] == row;
      } else {
        assert whole[b] == hs[b];
      }
    }
  }

  /** One new row object per row, in order. */
  method NewRows(rows: seq<Header>) returns (hs: seq<HeaderRow>)
    ensures RowsOf(hs) == rows
    ensures forall a, b :: 0 <= a < b < |hs| ==> hs[a] != hs[b]
  {
    hs := [];
    var i := 0;
    while i < |rows|
      invariant 0 <= i <= |rows|
      invariant |hs| == i
      invariant RowsOf(hs) == rows[..i]
      invariant forall a, b :: 0 <= a < b < |hs| ==> hs[a] != hs[b]
    {
      var row := new HeaderRow(rows[i].key, rows[i].value);
      assert RowsOf(hs) == rows[..i];
      assert row !in hs;
      AddRow(hs, row);
      TakeSnoc(rows, i);
      hs := hs + [row];
      i := i + 1;
    }
    assert rows[..i] == rows;
  }

  /** The editor's state: its row objects. Each handler returns what it passes to `onChange`. */
  class Editor {
    var headers: seq<HeaderRow>

    /** Each row object appears once. */
    predicate Valid()
      reads this
    {
      forall i, j :: 0 <= i < j < |headers| ==> headers[i] != headers[j]
    }

    function Rows(): seq<Header>
      reads this, headers
    {
      RowsOf(headers)
    }

    /** Mounting with the `value` prop: its rows; `onChange` is not called. */
    constructor (parsed: Option<JsValue>)
      ensures Valid()
      ensures Rows() == ParseHeaders(parsed)
    {
      var hs := NewRows(ParseHeaders(parsed));
      headers := hs;
    }

    /** `handleAdd`: one empty row at the end; what is reported does not change. */
    method Add() returns (reported: Option<seq<(string, string)>>)
      requires Valid()
      modifies this
      ensures Valid()
      ensures Rows() == old(Rows()) + [Header("", "")]
      ensures reported == Output(Rows()) == Output(old(Rows()))
    {
      var before := Rows();
      var row := new HeaderRow("", "");
      assert RowsOf(headers) == before;
      assert row !in headers;
      AddRow(headers, row);
      var after := before + [Header("", "")];
      assert RowsOf(headers + [row]) == after;
      InvalidRowChangesNothing(before, Header("", ""));
      headers := headers + [row];
      assert Rows() == after;
      reported := Output(after);
    }

    /** `handleRemove`: only the row at `index` goes. */
    method Remove(index: int) returns (reported: Option<seq<(string, string)>>)
      requires Valid()
      modifies this
      ensures Valid()
      ensures Rows() == RemoveAt(old(Rows()), index)
      ensures reported == Output(Rows())
    {
      var before := Rows();
      var after := RemoveAt(before, index);
      if 0 <= index < |headers| {
        var hs := headers[..index] + headers[index + 1..];
        forall i, j | 0 <= i < j < |hs|
          ensures hs[i] != hs[j]
        {
          var i' := if i < index then i else i + 1;
          var j' := if j < index then j else j + 1;
          assert hs[i] == headers[i'] && hs[j] == headers[j'] && i' < j';
        }
        assert forall k :: 0 <= k < |after| ==> RowsOf(hs)[k] == after[k];
        assert RowsOf(hs) == after;
        headers := hs;
      }
      assert Rows() == after;
      reported := Output(after);
    }

    /** `handleKeyChange`: the row object at `index` gets the new key; every other row is unchanged. */
    method EditKey(index: int, key: string) returns (reported: Option<seq<(string, string)>>)
      requires Valid() && 0 <= index < |headers|
      modifies this, headers[index]
      ensures Valid()
      ensures Rows() == old(Rows())[index := Header(key, old(Rows())[index].value)]
      ensures reported == Output(Rows())
    {
      var before := Rows();
      var copy := headers;
      copy[index].key := key;
      var after := before[index := Header(key, before[index].value)];
      assert RowsOf(copy) == after;
      headers := copy;
      reported := Output(after);
    }

    /** `handleValueChange`: the row object at `index` gets the new value; every other row is unchanged. */
    method EditValue(index: int, value: string) returns (reported: Option<seq<(string, string)>>)
      requires Valid() && 0 <= index < |headers|
      modifies this, headers[index]
      ensures Valid()
      ensures Rows() == old(Rows())[index := Header(old(Rows())[index].key, value)]
      ensures reported == Output(Rows())
    {
      var before := Rows();
      var copy := headers;
      copy[index].value := value;
      var after := before[index := Header(before[index].key, value)];
      assert RowsOf(copy) == after;
      headers := copy;
      reported := Output(after);
    }
  }
}

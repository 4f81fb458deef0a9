/**
 * Plain JavaScript objects as insertion-ordered field lists: property
 * lookup, assignment (in place for an existing key, appended otherwise),
 * object spread, and the copy-then-redact loop the logger and the Sentry
 * middleware both run over a fixed list of sensitive keys.
 */
module JsObjects {
  import opened Common
  import opened JsValues

  type Fields = seq<(string, JsValue)>

  /** The text a redacted field holds. */
  const Redacted := "[REDACTED]"

  /** `obj[key]`, `None` when the key is absent. */
  function Lookup(fields: Fields, key: string): (r: Option<JsValue>)
    ensures r.None? <==> !HasKey(fields, key)
  {
    if fields == [] then None
    else if fields[0].0 == key then Some(fields[0].1)
    else
      var r := Lookup(fields[1..], key);
      assert HasKey(fields, key) <==> HasKey(fields[1..], key) by {
        assert forall k :: 1 <= k < |fields| ==> fields[k] == fields[1..][k - 1];
        if HasKey(fields, key) {
          var k :| 0 <= k < |fields| && fields[k].0 == key;
          assert fields[1..][k - 1].0 == key;
        }
      }
      r
  }

  /** Every field named `key` gets `value`; the others and the order are kept. */
  function Replace(fields: Fields, key: string, value: JsValue): (r: Fields)
    ensures |r| == |fields|
    ensures forall k :: 0 <= k < |fields| ==> r[k].0 == fields[k].0
    ensures forall k :: 0 <= k < |fields| && fields[k].0 == key ==> r[k].1 == value
    ensures forall k :: 0 <= k < |fields| && fields[k].0 != key ==> r[k] == fields[k]
  {
    seq(|fields|, k requires 0 <= k < |fields| => if fields[k].0 == key then (key, value) else fields[k])
  }

  /** `obj[key] = value`: an existing property keeps its place, a new one goes last. */
  function AssignField(fields: Fields, key: string, value: JsValue): Fields
  {
    if HasKey(fields, key) then Replace(fields, key, value) else fields + [(key, value)]
  }

  lemma {:induction false} LookupReplace(fields: Fields, key: string, value: JsValue, other: string)
    ensures Lookup(Replace(fields, key, value), other) == if other == key && HasKey(fields, key) then Some(value) else Lookup(fields, other)
  {
    if fields != [] {
      var r := Replace(fields, key, value);
      assert r[1..] == Replace(fields[1..], key, value);
      LookupReplace(fields[1..], key, value, other);
    }
  }

  lemma {:induction false} LookupAppend(fields: Fields, key: string, value: JsValue, other: string)
    ensures Lookup(fields + [(key, value)], other) == if HasKey(fields, other) then Lookup(fields, other) else if other == key then Some(value) else None
  {
    var s := fields + [(key, value)];
    if fields == [] {
      assert s == [(key, value)];
    } else {
      assert s[1..] == fields[1..] + [(key, value)];
      LookupAppend(fields[1..], key, value, other);
    }
  }

  /** Reading a property just assigned gives the assigned value; every other property reads as before. */
  lemma LookupAssign(fields: Fields, key: string, value: JsValue, other: string)
    ensures Lookup(AssignField(fields, key, value), other) == if other == key then Some(value) else Lookup(fields, other)
  {
    if HasKey(fields, key) {
      LookupReplace(fields, key, value, other);
    } else {
      LookupAppend(fields, key, value, other);
    }
  }

  /** `{ ...obj, ...patch }`: the patch's properties assigned one after the other onto a copy. */
  function Merge(obj: Fields, patch: Fields): Fields
    decreases |patch|
  {
    if patch == [] then obj else Merge(AssignField(obj, patch[0].0, patch[0].1), patch[1..])
  }

  /** An object literal has each key once. */
  predicate UniqueKeys(fields: Fields)
  {
    forall i, j :: 0 <= i < j < |fields| ==> fields[i].0 != fields[j].0
  }

  /** After a spread merge a key reads the patch's value when the patch has it, and the object's otherwise. */
  lemma {:induction false} LookupMerge(obj: Fields, patch: Fields, key: string)
    requires UniqueKeys(patch)
    ensures Lookup(Merge(obj, patch), key) == if HasKey(patch, key) then Lookup(patch, key) else Lookup(obj, key)
    decreases |patch|
  {
    if patch != [] {
      var rest := patch[1..];
      assert UniqueKeys(rest) by {
        forall i, j | 0 <= i < j < |rest| ensures rest[i].0 != rest[j].0 {
          assert rest[i] == patch[i + 1] && rest[j] == patch[j + 1];
        }
      }
      LookupMerge(AssignField(obj, patch[0].0, patch[0].1), rest, key);
      LookupAssign(obj, patch[0].0, patch[0].1, key);
      assert HasKey(patch, key) <==> key == patch[0].0 || HasKey(rest, key) by {
        if HasKey(patch, key) && key != patch[0].0 {
          var k :| 0 <= k < |patch| && patch[k].0 == key;
          assert rest[k - 1].0 == key;
        }
        if HasKey(rest, key) {
          var k :| 0 <= k < |rest| && rest[k].0 == key;
          assert patch[k + 1].0 == key;
        }
      }
      if HasKey(rest, key) {
        var k :| 0 <= k < |rest| && rest[k].0 == key;
        assert patch[k + 1].0 == key;
        assert key != patch[0].0;
      }
    }
  }

  /** The properties of an array spread into an object: its indices as keys. */
  function IndexFields(items: seq<JsValue>): (r: Fields)
    ensures |r| == |items| && forall k :: 0 <= k < |items| ==> r[k] == (NatToString(k), items[k])
  {
    seq(|items|, k requires 0 <= k < |items| => (NatToString(k), items[k]))
  }

  /** `{ ...v }` for an object value: an array gives its index-keyed elements. */
  function Spread(v: JsValue): (r: Fields)
    ensures v.Obj? ==> r == v.fields
    ensures v.Arr? ==> r == IndexFields(v.items)
  {
    match v
    case Obj(fields) => fields
    case Arr(items) => IndexFields(items)
    case _ => []
  }

  /** The fields after every property named in `keys` is overwritten with the redaction text. */
  function Redact(fields: Fields, keys: seq<string>): (r: Fields)
    ensures |r| == |fields|
    ensures forall k :: 0 <= k < |fields| ==> r[k].0 == fields[k].0
    ensures forall k :: 0 <= k < |fields| && fields[k].0 in keys ==> r[k].1 == Str(Redacted)
    ensures forall k :: 0 <= k < |fields| && fields[k].0 !in keys ==> r[k] == fields[k]
  {
    seq(|fields|, k requires 0 <= k < |fields| => if fields[k].0 in keys then (fields[k].0, Str(Redacted)) else fields[k])
  }

  /** Redacting keeps every key: a property is present after redaction exactly when it was before. */
  lemma RedactKeepsKeys(fields: Fields, keys: seq<string>, key: string)
    ensures HasKey(Redact(fields, keys), key) <==> HasKey(fields, key)
  {
    var r := Redact(fields, keys);
    if HasKey(r, key) {
      var k :| 0 <= k < |r| && r[k].0 == key;
      assert fields[k].0 == key;
    }
    if HasKey(fields, key) {
      var k :| 0 <= k < |fields| && fields[k].0 == key;
      assert r[k].0 == key;
    }
  }

  /** Redacting twice is redacting once, and no listed property keeps its value. */
  lemma RedactIdempotent(fields: Fields, keys: seq<string>)
    ensures Redact(Redact(fields, keys), keys) == Redact(fields, keys)
    ensures forall key :: key in keys && HasKey(fields, key) ==> Lookup(Redact(fields, keys), key) == Some(Str(Redacted))
  {
    forall key | key in keys && HasKey(fields, key)
      ensures Lookup(Redact(fields, keys), key) == Some(Str(Redacted))
    {
      RedactLookup(fields, keys, key);
    }
  }

  lemma {:induction false} RedactLookup(fields: Fields, keys: seq<string>, key: string)
    requires key in keys && HasKey(fields, key)
    ensures Lookup(Redact(fields, keys), key) == Some(Str(Redacted))
  {
    var r := Redact(fields, keys);
    if fields[0].0 != key {
      assert r[1..] == Redact(fields[1..], keys);
      var k :| 0 <= k < |fields| && fields[k].0 == key;
      assert fields[1..][k - 1].0 == key;
      RedactLookup(fields[1..], keys, key);
    }
  }

  /** A property not listed reads the same after redaction. */
  lemma {:induction false} RedactLookupOther(fields: Fields, keys: seq<string>, key: string)
    requires key !in keys
    ensures Lookup(Redact(fields, keys), key) == Lookup(fields, key)
  {
    if fields != [] {
      assert Redact(fields, keys)[1..] == Redact(fields[1..], keys);
      RedactLookupOther(fields[1..], keys, key);
    }
  }

  /**
   * The copy-then-redact loop: for each sensitive key in turn, a present
   * property is overwritten with the redaction text.
   */
  method RedactCopy(fields: Fields, keys: seq<string>) returns (sanitized: Fields)
    ensures sanitized == Redact(fields, keys)
  {
    sanitized := fields;
    var i := 0;
    while i < |keys|
      invariant 0 <= i <= |keys|
      invariant sanitized == Redact(fields, keys[..i])
    {
      var key := keys[i];
      RedactKeepsKeys(fields, keys[..i], key);
      var next := Redact(fields, keys[..i + 1]);
      assert forall k :: 0 <= k < |fields| ==> (fields[k].0 in keys[..i + 1] <==> fields[k].0 in keys[..i] || fields[k].0 == key) by {
        assert keys[..i + 1] == keys[..i] + [key];
      }
      if HasKey(sanitized, key) {
        sanitized := AssignField(sanitized, key, Str(Redacted));
        assert forall k :: 0 <= k < |fields| ==> sanitized[k] == next[k];
      } else {
        assert forall k :: 0 <= k < |fields| ==> fields[k].0 != key;
        assert forall k :: 0 <= k < |fields| ==> sanitized[k] == next[k];
      }
      i := i + 1;
    }
    assert keys[..i] == keys;
  }
}

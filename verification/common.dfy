/**
 * Shared vocabulary: optional values, the JavaScript string predicates the
 * front end relies on (`\s`, `\w`, `.`, `trim`, `toLowerCase`, `includes`,
 * `startsWith`) and decimal / radix rendering of naturals.
 */
module Common {

  datatype Option<T> = None | Some(value: T)

  /** One key after `{ ...obj, ...patch }`: the patch's value when the patch has the key, the object's otherwise. */
  function Pick<T>(given: Option<T>, kept: T): T
  {
    if given.Some? then given.value else kept
  }

  /** A key after the spread holds the patch's value when the patch has it, and the old one otherwise. */
  predicate Overrides<T(==)>(given: Option<T>, before: T, after: T)
  {
    if given.Some? then after == given.value else after == before
  }

  /** A write of one application setting (`save_app_setting`), an effect a reducer asks the backend for. */
  datatype SettingWrite = SettingWrite(key: string, value: string)

  /** Regrouping a concatenation. */
  lemma SeqAssoc<T>(a: seq<T>, b: seq<T>, c: seq<T>)
    ensures a + (b + c) == a + b + c
  {
  }

  /** A non-empty sequence is its first element followed by the rest. */
  lemma HeadTail<T>(xs: seq<T>)
    requires xs != []
    ensures xs == [xs[0]] + xs[1..]
  {
  }

  /** The head and tail of a concatenation with a non-empty first part. */
  lemma ConsAppend<T>(a: seq<T>, b: seq<T>)
    requires a != []
    ensures (a + b)[0] == a[0] && (a + b)[1..] == a[1..] + b
  {
  }

  /** Adjacent slices join into one. */
  lemma SliceJoin<T>(s: seq<T>, a: nat, b: nat, c: nat)
    requires a <= b <= c <= |s|
    ensures s[a..b] + s[b..c] == s[a..c]
  {
  }

  /** Past the head, a cons reads its tail one position back. */
  lemma ConsAt<T>(x: T, xs: seq<T>, k: nat)
    requires 0 < k <= |xs|
    ensures ([x] + xs)[k] == xs[k - 1]
  {
  }

  /** A non-empty sequence is its prefix without the last element, then that element. */
  lemma InitLast<T>(s: seq<T>)
    requires s != []
    ensures s == s[..|s| - 1] + [s[|s| - 1]]
  {
  }

  /** A prefix one longer is the prefix and the next element. */
  lemma TakeSnoc<T>(s: seq<T>, i: nat)
    requires i < |s|
    ensures s[..i + 1] == s[..i] + [s[i]]
  {
  }

  /** The last element of `[x] + xs` is the last of `xs`. */
  lemma LastOfCons<T>(x: T, xs: seq<T>)
    requires xs != []
    ensures ([x] + xs)[|xs|] == xs[|xs| - 1]
  {
  }

  /** `s.startsWith(p)`. */
  predicate StartsWith(s: string, p: string)
  {
    |p| <= |s| && s[..|p|] == p
  }

  /** `sub` occurs in `s` at offset `i`. */
  predicate OccursAt(s: string, sub: string, i: int)
  {
    0 <= i && i + |sub| <= |s| && s[i..i + |sub|] == sub
  }

  /** `s.includes(sub)`. */
  predicate Contains(s: string, sub: string)
  {
    exists i :: 0 <= i <= |s| && OccursAt(s, sub, i)
  }

  lemma ContainsSelf(s: string)
    ensures Contains(s, s) && Contains(s, "")
  {
    assert OccursAt(s, s, 0);
    assert OccursAt(s, "", 0);
  }

  /** JavaScript line terminators: the characters `.` in a regular expression does not match. */
  predicate IsLineTerminator(c: char)
  {
    c == '\n' || c == '\r' || c == '\U{2028}' || c == '\U{2029}'
  }

  /** JavaScript `\s` (WhiteSpace and LineTerminator), the set `String.prototype.trim` removes. */
  predicate IsSpace(c: char)
  {
    c == ' ' || c == '\t' || c == '\U{000B}' || c == '\U{000C}' || c == '\U{00A0}' || c == '\U{FEFF}'
    || c == '\U{1680}' || ('\U{2000}' <= c <= '\U{200A}') || c == '\U{202F}' || c == '\U{205F}'
    || c == '\U{3000}' || IsLineTerminator(c)
  }

  predicate IsAsciiLetter(c: char) { ('a' <= c <= 'z') || ('A' <= c <= 'Z') }

  predicate IsDigit(c: char) { '0' <= c <= '9' }

  /** JavaScript `\w`. */
  predicate IsWordChar(c: char) { IsAsciiLetter(c) || IsDigit(c) || c == '_' }

  /** Length of the run of `\w` characters starting at `i`. */
  function WordRun(s: string, i: nat): (n: nat)
    requires i <= |s|
    ensures i + n <= |s|
    ensures forall k :: i <= k < i + n ==> IsWordChar(s[k])
    ensures i + n == |s| || !IsWordChar(s[i + n])
    decreases |s| - i
  {
    if i < |s| && IsWordChar(s[i]) then 1 + WordRun(s, i + 1) else 0
  }

  predicate AllSpace(s: string) { forall i :: 0 <= i < |s| ==> IsSpace(s[i]) }

  /** Index of the first non-whitespace character at or after `i` (or `|s|`). */
  function SkipSpace(s: string, i: nat): (j: nat)
    requires i <= |s|
    ensures i <= j <= |s|
    ensures forall k :: i <= k < j ==> IsSpace(s[k])
    ensures j == |s| || !IsSpace(s[j])
    decreases |s| - i
  {
    if i < |s| && IsSpace(s[i]) then SkipSpace(s, i + 1) else i
  }

  /** One past the last non-whitespace character before `j` (or 0). */
  function SkipSpaceBack(s: string, j: nat): (i: nat)
    requires j <= |s|
    ensures i <= j
    ensures forall k :: i <= k < j ==> IsSpace(s[k])
    ensures i == 0 || !IsSpace(s[i - 1])
  {
    if j > 0 && IsSpace(s[j - 1]) then SkipSpaceBack(s, j - 1) else j
  }

  /** `s.trimStart()`. */
  function TrimStart(s: string): (r: string)
  {
    s[SkipSpace(s, 0)..]
  }

  /** `s.trimEnd()`. */
  function TrimEnd(s: string): (r: string)
  {
    s[..SkipSpaceBack(s, |s|)]
  }

  /** `s.trim()`: the part of `s` between its leading and trailing whitespace. */
  function Trim(s: string): (r: string)
  {
    TrimEnd(TrimStart(s))
  }

  /** The trimmed text neither starts nor ends with whitespace, and only whitespace was removed around it. */
  lemma TrimShape(s: string)
    ensures var r := Trim(s);
      r == [] || (!IsSpace(r[0]) && !IsSpace(r[|r| - 1]))
    ensures var r := Trim(s);
      exists i :: 0 <= i <= |s| - |r| && s[i..i + |r|] == r && AllSpace(s[..i]) && AllSpace(s[i + |r|..])
  {
    var i := SkipSpace(s, 0);
    var t := s[i..];
    var j := SkipSpaceBack(t, |t|);
    var r := Trim(s);
    assert r == s[i..i + j];
    assert AllSpace(s[..i]);
    assert AllSpace(s[i + j..]) by {
      var u := s[i + j..];
      forall k | 0 <= k < |u| ensures IsSpace(u[k]) {
        assert u[k] == t[j + k];
      }
    }
    assert 0 <= i <= |s| - |r| && s[i..i + |r|] == r && AllSpace(s[..i]) && AllSpace(s[i + |r|..]);
  }

  lemma TrimEmptyIffAllSpace(s: string)
    ensures Trim(s) == [] <==> AllSpace(s)
  {
  }

  lemma TrimOfNonSpaceEnds(s: string)
    requires s != [] && !IsSpace(s[0]) && !IsSpace(s[|s| - 1])
    ensures Trim(s) == s
  {
  }

  /** Trimming twice is trimming once. */
  lemma TrimIdempotent(s: string)
    ensures Trim(Trim(s)) == Trim(s)
  {
    TrimShape(s);
    if Trim(s) != [] {
      TrimOfNonSpaceEnds(Trim(s));
    }
  }

  /** ASCII `toLowerCase`. */
  function LowerChar(c: char): (r: char)
    ensures 'A' <= c <= 'Z' ==> r as int == c as int + 32
    ensures !('A' <= c <= 'Z') ==> r == c
  {
    if 'A' <= c <= 'Z' then (c as int + 32) as char else c
  }

  function Lower(s: string): (r: string)
    ensures |r| == |s| && forall i :: 0 <= i < |s| ==> r[i] == LowerChar(s[i])
  {
    if s == [] then [] else [LowerChar(s[0])] + Lower(s[1..])
  }

  /** The digit character of value `d` in `Number.prototype.toString(radix)`. */
  function DigitChar(d: nat): (c: char)
    requires d < 36
    ensures IsRadixDigit(c)
    ensures d < 10 <==> IsDigit(c)
  {
    if d < 10 then ('0' as int + d) as char else ('a' as int + d - 10) as char
  }

  predicate IsRadixDigit(c: char) { IsDigit(c) || ('a' <= c <= 'z') }

  predicate AllRadixDigits(s: string) { forall i :: 0 <= i < |s| ==> IsRadixDigit(s[i]) }

  /** `n.toString(radix)` for a non-negative integer. */
  function NatToRadix(n: nat, radix: nat): (r: string)
    requires 2 <= radix <= 36
    ensures |r| >= 1 && AllRadixDigits(r)
    ensures radix <= 10 ==> AllDigits(r)
    ensures n == 0 ==> r == "0"
    decreases n
  {
    if n < radix then [DigitChar(n)]
    else
      var q := n / radix;
      DivShrinks(n, radix);
      var prefix := NatToRadix(q, radix);
      var last := DigitChar(n % radix);
      assert forall i :: 0 <= i < |prefix| ==> (prefix + [last])[i] == prefix[i];
      prefix + [last]
  }

  /** Dividing by a radix of at least 2 makes a non-zero number smaller. */
  lemma DivShrinks(n: nat, radix: nat)
    requires 2 <= radix <= n
    ensures n / radix < n
  {
    var q, r := n / radix, n % radix;
    assert n == q * radix + r && r >= 0;
    var extra: nat := radix - 2;
    assert q * radix == q * extra + 2 * q;
    assert q * extra >= 0;
  }

  /** `String(n)` for a non-negative integer: `n.toString(10)`. */
  function NatToString(n: nat): (r: string)
    ensures |r| >= 1 && AllDigits(r)
  {
    if n < 10 then [DigitChar(n)] else NatToString(n / 10) + [DigitChar(n % 10)]
  }

  lemma {:induction false} NatToStringIsRadixTen(n: nat)
    ensures NatToString(n) == NatToRadix(n, 10)
  {
    if n >= 10 {
      NatToStringIsRadixTen(n / 10);
    }
  }

  predicate AllDigits(s: string) { forall i :: 0 <= i < |s| ==> IsDigit(s[i]) }

  /** The value of a string of decimal digits. */
  function DecimalValue(s: string): nat
    requires AllDigits(s)
  {
    if s == [] then 0 else DecimalValue(s[..|s| - 1]) * 10 + ((s[|s| - 1] as int - '0' as int) as nat)
  }

  lemma {:induction false} NatToStringValue(n: nat)
    ensures DecimalValue(NatToString(n)) == n
    decreases n
  {
    if n >= 10 {
      NatToStringValue(n / 10);
      var r := NatToString(n);
      assert r[..|r| - 1] == NatToString(n / 10);
    }
  }

  /** Distinct naturals render to distinct decimal strings. */
  lemma NatToStringInjective(a: nat, b: nat)
    requires a != b
    ensures NatToString(a) != NatToString(b)
  {
    NatToStringValue(a);
    NatToStringValue(b);
  }

  /** Index of the first `c` in `s` at or after `i`, or `|s|` when there is none. */
  function IndexOf(s: string, c: char, i: nat): (j: nat)
    requires i <= |s|
    ensures i <= j <= |s|
    ensures forall k :: i <= k < j ==> s[k] != c
    ensures j < |s| ==> s[j] == c
    decreases |s| - i
  {
    if i == |s| || s[i] == c then i else IndexOf(s, c, i + 1)
  }

  /** `s.split(c)` for a one-character separator: the pieces between the separators, at least one. */
  function Split(s: string, c: char): (r: seq<string>)
    ensures |r| >= 1
    decreases |s|
  {
    var i := IndexOf(s, c, 0);
    if i == |s| then [s] else [s[..i]] + Split(s[i + 1..], c)
  }

  /** `parts.join(c)`. */
  function Join(parts: seq<string>, c: char): string
    requires |parts| >= 1
  {
    if |parts| == 1 then parts[0] else parts[0] + [c] + Join(parts[1..], c)
  }

  /** No piece holds the separator. */
  lemma {:induction false} SplitPiecesFree(s: string, c: char)
    ensures forall k :: 0 <= k < |Split(s, c)| ==> c !in Split(s, c)[k]
    decreases |s|
  {
    var i := IndexOf(s, c, 0);
    if i < |s| {
      SplitPiecesFree(s[i + 1..], c);
      assert c !in s[..i];
    }
  }

  /** Joining the pieces gives back the text. */
  lemma {:induction false} JoinSplit(s: string, c: char)
    ensures Join(Split(s, c), c) == s
    decreases |s|
  {
    var i := IndexOf(s, c, 0);
    if i < |s| {
      JoinSplit(s[i + 1..], c);
      assert s == s[..i] + [c] + s[i + 1..];
    }
  }

  /** Splitting separator-free pieces joined by the separator gives back the pieces. */
  lemma {:induction false} SplitJoin(parts: seq<string>, c: char)
    requires |parts| >= 1 && forall k :: 0 <= k < |parts| ==> c !in parts[k]
    ensures Split(Join(parts, c), c) == parts
  {
    var j := Join(parts, c);
    var first := parts[0];
    IndexOfPrefix(first, c, j);
    if |parts| > 1 {
      SplitJoin(parts[1..], c);
      assert j[|first| + 1..] == Join(parts[1..], c);
      assert j[..|first|] == first;
      assert parts == [first] + parts[1..];
    }
  }

  lemma IndexOfPrefix(first: string, c: char, s: string)
    requires c !in first && StartsWith(s, first) && (|s| == |first| || s[|first|] == c)
    ensures IndexOf(s, c, 0) == |first|
  {
  }

  /** `s.charCodeAt(i)` for every `i`: the UTF-16 encoding of `s`. */
  function CodeUnits(s: string): (r: seq<nat>)
    ensures |r| >= |s|
    ensures forall k :: 0 <= k < |r| ==> r[k] < 0x1_0000
    ensures (forall k :: 0 <= k < |s| ==> (s[k] as int) < 0x1_0000) ==>
      |r| == |s| && forall k :: 0 <= k < |s| ==> r[k] == s[k] as int
  {
    if s == [] then []
    else
      var c := s[|s| - 1] as int;
      var last := if c < 0x1_0000 then [c]
        else [0xD800 + (c - 0x1_0000) / 0x400, 0xDC00 + (c - 0x1_0000) % 0x400];
      var init := s[..|s| - 1];
      assert forall k :: 0 <= k < |init| ==> init[k] == s[k];
      CodeUnits(init) + last
  }

  /** The encoding of a concatenation is the concatenation of the encodings. */
  lemma {:induction false} CodeUnitsAppend(a: string, b: string)
    ensures CodeUnits(a + b) == CodeUnits(a) + CodeUnits(b)
    decreases |b|
  {
    if b == [] {
      assert a + b == a;
    } else {
      var ab := a + b;
      var init := b[..|b| - 1];
      assert ab[..|ab| - 1] == a + init;
      assert ab[|ab| - 1] == b[|b| - 1];
      CodeUnitsAppend(a, init);
      SeqAssoc(CodeUnits(a), CodeUnits(init), CodeUnits(b)[|CodeUnits(init)|..]);
    }
  }

  /** `.length`: the number of UTF-16 code units. A prefix is never longer than the text. */
  lemma LengthOfPrefix(a: string, b: string)
    requires a <= b
    ensures |CodeUnits(a)| <= |CodeUnits(b)|
  {
    assert b == a + b[|a|..];
    CodeUnitsAppend(a, b[|a|..]);
  }

  /** Each character outside the Basic Multilingual Plane takes two code units. */
  lemma {:induction false} AstralCodeUnits(s: string)
    requires forall k :: 0 <= k < |s| ==> (s[k] as int) >= 0x1_0000
    ensures |CodeUnits(s)| == 2 * |s|
  {
    if s != [] {
      AstralCodeUnits(s[..|s| - 1]);
    }
  }
}

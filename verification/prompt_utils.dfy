/**
 * Prompt templates with `{{name}}` variables: `parsePromptVariables` lists
 * the names a template uses (the global pattern `\{\{(\w+)\}\}`, duplicates
 * dropped), and `renderPrompt` substitutes the values of a variables object
 * key by key with `String.prototype.replace` and a global pattern, so the
 * replacement string's `$$`, `$&`, `` $` `` and `$'` are expanded.
 */
module PromptUtils {
  import opened Common

  /** The text `{{key}}`. */
  function Placeholder(key: string): (r: string)
    ensures |r| == |key| + 4
    ensures r[..2] == "{{" && r[2..|key| + 2] == key && r[|key| + 2..] == "}}"
  {
    "{{" + key + "}}"
  }

  /** A `\w+` name. */
  predicate IsName(x: string)
  {
    |x| > 0 && forall k :: 0 <= k < |x| ==> IsWordChar(x[k])
  }

  /** Length of the name of the pattern match starting exactly at `i`, if one does. */
  function PlaceholderAt(s: string, i: nat): (r: Option<nat>)
    requires i <= |s|
    ensures r.Some? ==> i + 4 + r.value <= |s|
    ensures r.Some? ==> r.value > 0 && OccursAt(s, Placeholder(s[i + 2..i + 2 + r.value]), i)
    ensures r.Some? ==> IsName(s[i + 2..i + 2 + r.value])
  {
    if OccursAt(s, "{{", i) then
      var n := WordRun(s, i + 2);
      if n > 0 && OccursAt(s, "}}", i + 2 + n) then
        var name := s[i + 2..i + 2 + n];
        assert forall k :: 0 <= k < |name| ==> name[k] == s[i + 2 + k];
        assert IsName(name);
        assert s[i..i + 2] == "{{" && s[i + 2 + n..i + 4 + n] == "}}";
        assert s[i..i + 4 + n] == s[i..i + 2] + name + s[i + 2 + n..i + 4 + n];
        assert s[i..i + 4 + n] == Placeholder(name);
        Some(n)
      else None
    else None
  }

  /** The names of all matches at or after `i`, scanning left to right without overlap. */
  function Matches(s: string, i: nat): (r: seq<string>)
    requires i <= |s|
    decreases |s| - i
  {
    if i == |s| then []
    else
      match PlaceholderAt(s, i)
      case Some(n) => [s[i + 2..i + 2 + n]] + Matches(s, i + 4 + n)
      case None => Matches(s, i + 1)
  }

  /** Every name found is a `\w+` name whose placeholder is written in the text. */
  lemma {:induction false} MatchesSound(s: string, i: nat)
    requires i <= |s|
    ensures forall x :: x in Matches(s, i) ==> IsName(x) && Contains(s, Placeholder(x))
    decreases |s| - i
  {
    if i < |s| {
      match PlaceholderAt(s, i)
      case Some(n) =>
        var name := s[i + 2..i + 2 + n];
        assert OccursAt(s, Placeholder(name), i);
        MatchesSound(s, i + 4 + n);
      case None =>
        MatchesSound(s, i + 1);
    }
  }

  /** No element occurs twice. */
  predicate Distinct(xs: seq<string>)
  {
    forall i, j :: 0 <= i < j < |xs| ==> xs[i] != xs[j]
  }

  /** Position of the first occurrence of `x`. */
  function FirstIndex(xs: seq<string>, x: string): (r: nat)
    requires x in xs
    ensures r < |xs| && xs[r] == x
    ensures forall k :: 0 <= k < r ==> xs[k] != x
  {
    if xs[0] == x then 0 else 1 + FirstIndex(xs[1..], x)
  }

  /** `[...new Set(xs)]`: each element once, where it first occurs. */
  function Dedup(xs: seq<string>): (r: seq<string>)
    ensures forall x :: x in r <==> x in xs
    ensures Distinct(r)
  {
    if xs == [] then []
    else
      var init := xs[..|xs| - 1];
      var x := xs[|xs| - 1];
      assert xs == init + [x];
      var p := Dedup(init);
      if x in p then p else p + [x]
  }

  function ParsePromptVariables(content: string): (r: seq<string>)
    ensures Distinct(r)
    ensures forall x :: x in r <==> x in Matches(content, 0)
  {
    Dedup(Matches(content, 0))
  }

  lemma FirstIndexAppend(xs: seq<string>, y: string, x: string)
    requires x in xs
    ensures FirstIndex(xs + [y], x) == FirstIndex(xs, x)
  {
    var q := FirstIndex(xs, x);
    var r := FirstIndex(xs + [y], x);
    assert (xs + [y])[q] == x;
  }

  lemma FirstIndexLast(xs: seq<string>, y: string)
    requires y !in xs
    ensures FirstIndex(xs + [y], y) == |xs|
  {
    assert (xs + [y])[|xs|] == y;
  }

  /** The names come out in order of their first occurrence. */
  lemma {:induction false} DedupOrder(xs: seq<string>)
    ensures forall i, j :: 0 <= i < j < |Dedup(xs)| ==> FirstIndex(xs, Dedup(xs)[i]) < FirstIndex(xs, Dedup(xs)[j])
  {
    if xs != [] {
      var init := xs[..|xs| - 1];
      var x := xs[|xs| - 1];
      assert xs == init + [x];
      var p := Dedup(init);
      DedupOrder(init);
      forall k | 0 <= k < |p|
        ensures FirstIndex(xs, p[k]) == FirstIndex(init, p[k])
      {
        FirstIndexAppend(init, x, p[k]);
      }
      if x !in p {
        FirstIndexLast(init, x);
        var r := p + [x];
        forall i, j | 0 <= i < j < |r|
          ensures FirstIndex(xs, r[i]) < FirstIndex(xs, r[j])
        {
          if j == |p| {
            assert r[i] == p[i] && r[j] == x;
          } else {
            assert r[i] == p[i] && r[j] == p[j];
          }
        }
      }
    }
  }

  /** Where `{{x}}` is written, the pattern matches there and captures `x`. */
  lemma MatchAtOccurrence(s: string, p: nat, x: string)
    requires IsName(x) && OccursAt(s, Placeholder(x), p)
    ensures PlaceholderAt(s, p) == Some(|x|) && s[p + 2..p + 2 + |x|] == x
  {
    var pat := Placeholder(x);
    assert s[p..p + |pat|] == pat;
    assert forall k :: 0 <= k < |pat| ==> s[p + k] == pat[k];
    assert OccursAt(s, "{{", p);
    assert s[p + 2 + |x|] == '}';
    var m := WordRun(s, p + 2);
    assert forall k :: 0 <= k < |x| ==> s[p + 2 + k] == x[k];
    assert m == |x|;
    assert OccursAt(s, "}}", p + 2 + m);
    assert s[p + 2..p + 2 + |x|] == x;
  }

  /** A match starting before an occurrence of `{{x}}` ends before it. */
  lemma MatchEndsBefore(s: string, i: nat, n: nat, p: nat, x: string)
    requires i < p && i <= |s| && PlaceholderAt(s, i) == Some(n)
    requires IsName(x) && OccursAt(s, Placeholder(x), p)
    ensures i + 4 + n <= p
  {
    var pat := Placeholder(x);
    assert s[p..p + |pat|] == pat;
    assert s[p] == pat[0] == '{' && s[p + 1] == pat[1] == '{';
    assert s[i + 2 + n..i + 4 + n] == "}}";
    assert s[i + 2 + n] == '}' && s[i + 3 + n] == '}';
    assert IsWordChar(s[i + 2]);
  }

  /** Every textual `{{name}}` with a `\w+` name is found: matches never hide one another. */
  lemma {:induction false} MatchesComplete(s: string, i: nat, p: nat, x: string)
    requires i <= p && IsName(x) && OccursAt(s, Placeholder(x), p)
    ensures x in Matches(s, i)
    decreases |s| - i
  {
    if p == i {
      MatchAtOccurrence(s, p, x);
      MatchesUnfold(s, i);
      assert Matches(s, i)[0] == x;
    } else {
      ScanStepBeforeOccurrence(s, i, p, x);
      MatchesComplete(s, NextStart(s, i), p, x);
      MatchesKeepLater(s, i, x);
    }
  }

  /** Where the scan resumes after position `i`: past a match, or one character on. */
  function NextStart(s: string, i: nat): (r: nat)
    requires i < |s|
    ensures i < r <= |s|
  {
    match PlaceholderAt(s, i)
    case Some(n) => i + 4 + n
    case None => i + 1
  }

  /** The scan, before an occurrence of `{{x}}`, resumes no later than that occurrence. */
  lemma ScanStepBeforeOccurrence(s: string, i: nat, p: nat, x: string)
    requires i < p && IsName(x) && OccursAt(s, Placeholder(x), p)
    ensures i < |s| && NextStart(s, i) <= p
  {
    if PlaceholderAt(s, i).Some? {
      MatchEndsBefore(s, i, PlaceholderAt(s, i).value, p, x);
    }
  }

  /** Every name found from where the scan resumes is found from `i`. */
  lemma MatchesKeepLater(s: string, i: nat, x: string)
    requires i < |s| && x in Matches(s, NextStart(s, i))
    ensures x in Matches(s, i)
  {
    MatchesUnfold(s, i);
    match PlaceholderAt(s, i)
    case Some(n) =>
      InLaterPart([s[i + 2..i + 2 + n]], Matches(s, i + 4 + n), x);
    case None =>
  }

  lemma InLaterPart(a: seq<string>, b: seq<string>, x: string)
    requires x in b
    ensures x in a + b
  {
    var k :| 0 <= k < |b| && b[k] == x;
    assert (a + b)[|a| + k] == x;
  }

  /** One step of the scan. */
  lemma MatchesUnfold(s: string, i: nat)
    requires i < |s|
    ensures PlaceholderAt(s, i).Some? ==>
      Matches(s, i) == [s[i + 2..i + 2 + PlaceholderAt(s, i).value]] + Matches(s, i + 4 + PlaceholderAt(s, i).value)
    ensures PlaceholderAt(s, i).None? ==> Matches(s, i) == Matches(s, i + 1)
  {
  }

  /** The parsed names are exactly the `\w+` names written as `{{name}}` in the content, each once. */
  lemma ParseFindsExactly(content: string, x: string)
    ensures x in ParsePromptVariables(content) <==> IsName(x) && Contains(content, Placeholder(x))
    ensures Distinct(ParsePromptVariables(content))
  {
    MatchesSound(content, 0);
    if IsName(x) && Contains(content, Placeholder(x)) {
      var p :| 0 <= p <= |content| && OccursAt(content, Placeholder(x), p);
      MatchesComplete(content, 0, p, x);
    }
  }

  /** In parse order, each name comes before any name that first appears later. */
  lemma ParseInFirstOccurrenceOrder(content: string)
    ensures var ms := Matches(content, 0);
      forall i, j :: 0 <= i < j < |ParsePromptVariables(content)| ==>
        FirstIndex(ms, ParsePromptVariables(content)[i]) < FirstIndex(ms, ParsePromptVariables(content)[j])
  {
    DedupOrder(Matches(content, 0));
  }

  /**
   * The replacement text `String.prototype.replace` inserts for one match of a
   * pattern without capture groups: `$$`, `$&`, `` $` `` and `$'` are
   * expanded, every other character (including other `$` forms) is copied.
   */
  function Expand(value: string, matched: string, before: string, after: string): (r: string)
  {
    if |value| >= 2 && value[0] == '$' && value[1] == '$' then "$" + Expand(value[2..], matched, before, after)
    else if |value| >= 2 && value[0] == '$' && value[1] == '&' then matched + Expand(value[2..], matched, before, after)
    else if |value| >= 2 && value[0] == '$' && value[1] == '`' then before + Expand(value[2..], matched, before, after)
    else if |value| >= 2 && value[0] == '$' && value[1] == '\'' then after + Expand(value[2..], matched, before, after)
    else if value == [] then []
    else [value[0]] + Expand(value[1..], matched, before, after)
  }

  /** A value without `$` is inserted as written. */
  lemma {:induction false} ExpandWithoutDollar(value: string, matched: string, before: string, after: string)
    requires '$' !in value
    ensures Expand(value, matched, before, after) == value
  {
    if value != [] {
      assert value[0] != '$';
      assert value == [value[0]] + value[1..];
      ExpandWithoutDollar(value[1..], matched, before, after);
    }
  }

  /**
   * A global replace of the literal `pat` in `rest`, where `done` is the part
   * of the original string already scanned (what `` $` `` refers to).
   */
  function ReplaceIn(pat: string, value: string, done: string, rest: string): (r: string)
    requires |pat| > 0
    decreases |rest|
  {
    if |rest| < |pat| then rest
    else if rest[..|pat|] == pat then
      Expand(value, pat, done, rest[|pat|..]) + ReplaceIn(pat, value, done + pat, rest[|pat|..])
    else [rest[0]] + ReplaceIn(pat, value, done + [rest[0]], rest[1..])
  }

  /** `s.replace(new RegExp(pattern of pat, 'g'), value)`. */
  function ReplaceAll(s: string, pat: string, value: string): string
    requires |pat| > 0
  {
    ReplaceIn(pat, value, [], s)
  }

  /** `renderPrompt`: the replacements applied one entry after the other, in entry order. */
  function Rendered(content: string, entries: seq<(string, string)>): string
  {
    if entries == [] then content
    else
      var last := entries[|entries| - 1];
      ReplaceAll(Rendered(content, entries[..|entries| - 1]), Placeholder(last.0), last.1)
  }

  method RenderPrompt(content: string, entries: seq<(string, string)>) returns (rendered: string)
    ensures rendered == Rendered(content, entries)
  {
    rendered := content;
    var i := 0;
    while i < |entries|
      invariant 0 <= i <= |entries|
      invariant rendered == Rendered(content, entries[..i])
    {
      var (key, value) := entries[i];
      assert entries[..i + 1][..i] == entries[..i];
      rendered := ReplaceAll(rendered, Placeholder(key), value);
      i := i + 1;
    }
    assert entries[..i] == entries;
  }

  lemma {:induction false} ReplaceInAbsent(pat: string, value: string, done: string, rest: string)
    requires |pat| > 0
    requires forall k :: 0 <= k <= |rest| ==> !OccursAt(rest, pat, k)
    ensures ReplaceIn(pat, value, done, rest) == rest
    decreases |rest|
  {
    if |rest| >= |pat| {
      assert !OccursAt(rest, pat, 0);
      forall k | 0 <= k <= |rest| - 1
        ensures !OccursAt(rest[1..], pat, k)
      {
        assert !OccursAt(rest, pat, k + 1);
      }
      ReplaceInAbsent(pat, value, done + [rest[0]], rest[1..]);
    }
  }

  /** Replacing a pattern that does not occur changes nothing. */
  lemma ReplaceAllAbsent(s: string, pat: string, value: string)
    requires |pat| > 0 && !Contains(s, pat)
    ensures ReplaceAll(s, pat, value) == s
  {
    ReplaceInAbsent(pat, value, [], s);
  }

  /** Content in which no key's placeholder occurs (empty content, for one) is returned unchanged. */
  lemma {:induction false} RenderWithoutPlaceholders(content: string, entries: seq<(string, string)>)
    requires forall k :: 0 <= k < |entries| ==> !Contains(content, Placeholder(entries[k].0))
    ensures Rendered(content, entries) == content
  {
    if entries != [] {
      var init := entries[..|entries| - 1];
      var last := entries[|entries| - 1];
      assert forall k :: 0 <= k < |init| ==> init[k] == entries[k];
      RenderWithoutPlaceholders(content, init);
      ReplaceAllAbsent(content, Placeholder(last.0), last.1);
    }
  }

  /** Empty content renders to empty content, whatever the variables. */
  lemma RenderEmpty(entries: seq<(string, string)>)
    ensures Rendered("", entries) == ""
  {
    RenderWithoutPlaceholders("", entries);
  }

  /** An entry whose placeholder is absent from the text has no effect (extra keys). */
  lemma ExtraKeyHasNoEffect(content: string, entries: seq<(string, string)>, key: string, value: string)
    requires !Contains(Rendered(content, entries), Placeholder(key))
    ensures Rendered(content, entries + [(key, value)]) == Rendered(content, entries)
  {
    assert (entries + [(key, value)])[..|entries|] == entries;
    ReplaceAllAbsent(Rendered(content, entries), Placeholder(key), value);
  }

  /** The value `$&` puts every match back: the replace is then the identity. */
  lemma {:induction false} ReplaceWithMatchIsIdentity(pat: string, done: string, rest: string)
    requires |pat| > 0
    ensures ReplaceIn(pat, "$&", done, rest) == rest
    decreases |rest|
  {
    if |rest| >= |pat| {
      if rest[..|pat|] == pat {
        assert Expand("$&", pat, done, rest[|pat|..]) == pat + Expand([], pat, done, rest[|pat|..]);
        ReplaceWithMatchIsIdentity(pat, done + pat, rest[|pat|..]);
        assert rest == pat + rest[|pat|..];
      } else {
        ReplaceWithMatchIsIdentity(pat, done + [rest[0]], rest[1..]);
        assert rest == [rest[0]] + rest[1..];
      }
    }
  }

  /** No proper suffix of `pat` is also a prefix of it, so two of its occurrences never overlap. */
  predicate BorderFree(pat: string)
  {
    |pat| > 0 && forall d :: 0 < d < |pat| ==> pat[d..] != pat[..|pat| - d]
  }

  lemma PlaceholderBorderFree(key: string)
    requires IsName(key)
    ensures BorderFree(Placeholder(key))
  {
    var pat := Placeholder(key);
    assert pat[0] == '{' && pat[1] == '{' && pat[2] == key[0];
    forall d | 0 < d < |pat|
      ensures pat[d..] != pat[..|pat| - d]
    {
      assert pat[0] == '{' && pat[1] == '{' && pat[2] == key[0];
    }
  }

  /** `text` with `sep` written between consecutive pieces. */
  function Fill(pieces: seq<string>, sep: string): string
    requires |pieces| > 0
  {
    if |pieces| == 1 then pieces[0] else pieces[0] + sep + Fill(pieces[1..], sep)
  }

  /** A non-empty prefix without `pat` does not let a match start at 0. */
  lemma NoMatchAtStart(pat: string, p: string, tail: string)
    requires BorderFree(pat) && p != [] && !Contains(p, pat)
    ensures |p + pat + tail| >= |pat| && (p + pat + tail)[..|pat|] != pat
  {
    var rest := p + pat + tail;
    if |p| >= |pat| {
      assert rest[..|pat|] == p[..|pat|];
      assert !OccursAt(p, pat, 0);
    } else {
      assert pat[|p|..] != pat[..|pat| - |p|];
    }
  }

  lemma NotContainedInTail(p: string, pat: string)
    requires p != [] && !Contains(p, pat)
    ensures !Contains(p[1..], pat)
  {
    if Contains(p[1..], pat) {
      var k :| 0 <= k <= |p[1..]| && OccursAt(p[1..], pat, k);
      assert p[1..][k..k + |pat|] == p[k + 1..k + 1 + |pat|];
      assert OccursAt(p, pat, k + 1);
    }
  }

  /** The scan copies a prefix free of `pat`, then replaces the occurrence that follows it. */
  lemma {:induction false} ReplaceInPrefix(pat: string, value: string, done: string, p: string, tail: string)
    requires BorderFree(pat) && '$' !in value && !Contains(p, pat)
    ensures ReplaceIn(pat, value, done, p + pat + tail) == p + value + ReplaceIn(pat, value, done + p + pat, tail)
    decreases |p|
  {
    var rest := p + pat + tail;
    if p == [] {
      assert rest == pat + tail;
      assert rest[..|pat|] == pat && rest[|pat|..] == tail;
      ReplaceInMatch(pat, value, done, rest);
      ExpandWithoutDollar(value, pat, done, tail);
      assert done + p == done && p + value == value;
    } else {
      NoMatchAtStart(pat, p, tail);
      NotContainedInTail(p, pat);
      var rest1 := p[1..] + pat + tail;
      assert rest[0] == p[0] && rest[1..] == rest1;
      ReplaceInSkip(pat, value, done, rest);
      ReplaceInPrefix(pat, value, done + [p[0]], p[1..], tail);
      var later := ReplaceIn(pat, value, done + p + pat, tail);
      assert done + [p[0]] + p[1..] + pat == done + p + pat;
      calc {
        ReplaceIn(pat, value, done, rest);
        [p[0]] + ReplaceIn(pat, value, done + [p[0]], rest1);
        [p[0]] + (p[1..] + value + later);
        { ConsRegroup(p, value, later); }
        p + value + later;
      }
    }
  }

  lemma ConsRegroup(p: string, value: string, later: string)
    requires p != []
    ensures [p[0]] + (p[1..] + value + later) == p + value + later
  {
    assert [p[0]] + p[1..] == p;
  }

  /** The scan at a match: the expanded value, then the scan past the match. */
  lemma ReplaceInMatch(pat: string, value: string, done: string, rest: string)
    requires |pat| > 0 && |rest| >= |pat| && rest[..|pat|] == pat
    ensures ReplaceIn(pat, value, done, rest)
      == Expand(value, pat, done, rest[|pat|..]) + ReplaceIn(pat, value, done + pat, rest[|pat|..])
  {
  }

  /** The scan where no match starts: the first character is kept. */
  lemma ReplaceInSkip(pat: string, value: string, done: string, rest: string)
    requires |pat| > 0 && |rest| >= |pat| && rest[..|pat|] != pat
    ensures ReplaceIn(pat, value, done, rest) == [rest[0]] + ReplaceIn(pat, value, done + [rest[0]], rest[1..])
  {
  }

  /**
   * Every occurrence is replaced: a text made of pieces that do not contain
   * `{{key}}`, joined by `{{key}}`, renders to the same pieces joined by the
   * value (when the value has no `$`).
   */
  lemma {:induction false} ReplaceEveryOccurrence(key: string, value: string, done: string, pieces: seq<string>)
    requires IsName(key) && '$' !in value && |pieces| > 0
    requires forall k :: 0 <= k < |pieces| ==> !Contains(pieces[k], Placeholder(key))
    ensures ReplaceIn(Placeholder(key), value, done, Fill(pieces, Placeholder(key))) == Fill(pieces, value)
    decreases |pieces|
  {
    var pat := Placeholder(key);
    if |pieces| == 1 {
      ReplaceInAbsent(pat, value, done, pieces[0]);
    } else {
      PlaceholderBorderFree(key);
      ReplaceInPrefix(pat, value, done, pieces[0], Fill(pieces[1..], pat));
      ReplaceEveryOccurrence(key, value, done + pieces[0] + pat, pieces[1..]);
    }
  }

  /**
   * One key: the whole render fills every placeholder of that key. Another
   * key's placeholder is part of the pieces and stays as written, since
   * `{{b}}` never matches `{{a}}` (`ReplaceOtherName`).
   */
  lemma RenderOneKey(key: string, value: string, pieces: seq<string>)
    requires IsName(key) && '$' !in value && |pieces| > 0
    requires forall k :: 0 <= k < |pieces| ==> !Contains(pieces[k], Placeholder(key))
    ensures Rendered(Fill(pieces, Placeholder(key)), [(key, value)]) == Fill(pieces, value)
  {
    ReplaceEveryOccurrence(key, value, [], pieces);
  }

  /** Helper: a replace of `{{b}}` leaves `{{a}}` as written. */
  lemma ReplaceOtherName(done: string)
    ensures ReplaceIn(Placeholder("b"), "x", done, "{{a}}") == "{{a}}"
  {
    var s := "{{a}}";
    assert s[..5][2] != Placeholder("b")[2];
    assert ReplaceIn(Placeholder("b"), "x", done + "{", s[1..]) == s[1..];
  }

  /** The scan of `{{{{a}}}}` finds one match, `a`, starting at offset 2. */
  lemma NestedBracesParse()
    ensures ParsePromptVariables("{{{{a}}}}") == ["a"]
  {
    var s := "{{{{a}}}}";
    assert PlaceholderAt(s, 0) == None by { assert WordRun(s, 2) == 0; }
    assert PlaceholderAt(s, 1) == None by { assert WordRun(s, 3) == 0; }
    assert PlaceholderAt(s, 2) == Some(1) by {
      assert WordRun(s, 5) == 0;
      assert WordRun(s, 4) == 1;
    }
    assert Matches(s, 8) == [] by { assert PlaceholderAt(s, 8) == None; }
    assert Matches(s, 7) == [];
    assert s[4..5] == "a";
    assert Matches(s, 2) == ["a"];
    assert Matches(s, 1) == Matches(s, 2);
    assert Matches(s, 0) == Matches(s, 1);
  }

  lemma SinglePlaceholderParse()
    ensures ParsePromptVariables("{{a}}") == ["a"]
  {
    var t := "{{a}}";
    assert PlaceholderAt(t, 0) == Some(1) by {
      assert WordRun(t, 3) == 0;
      assert WordRun(t, 2) == 1;
    }
    assert t[2..3] == "a";
    assert Matches(t, 5) == [];
    assert Matches(t, 0) == ["a"];
  }

  /** The replace of `{{a}}` by `a` in `{{{{a}}}}`, one scan step at a time. */
  lemma NestedBracesRender()
    ensures Rendered("{{{{a}}}}", [("a", "a")]) == "{{a}}"
  {
    var s := "{{{{a}}}}";
    var pat := Placeholder("a");
    assert pat == "{{a}}";
    var r2 := ReplaceIn(pat, "a", "{{" + pat, s[7..]);
    assert r2 == "}}" by { assert s[7..] == "}}"; }
    ExpandWithoutDollar("a", pat, "{{", s[7..]);
    assert s[2..][..5] == pat && s[2..][5..] == s[7..];
    var r1 := ReplaceIn(pat, "a", "{{", s[2..]);
    assert r1 == "a" + r2;
    assert s[1..][..5] != pat by { assert s[1..][2] != pat[2]; }
    assert s[1..][1..] == s[2..] && "{" + [s[1..][0]] == "{{";
    assert ReplaceIn(pat, "a", "{", s[1..]) == "{" + r1;
    assert s[..5] != pat by { assert s[2] != pat[2]; }
    assert "" + [s[0]] == "{" && [s[0]] == "{";
    assert ReplaceIn(pat, "a", "", s) == "{" + ReplaceIn(pat, "a", "{", s[1..]);
    assert [("a", "a")][..0] == [];
  }

  /**
   * Rendering can leave a parsed placeholder behind even when the value has
   * neither `{{` nor `$`: in `{{{{a}}}}` the braces around the match close
   * around the value `a`.
   */
  lemma PlaceholderCanSurvive()
    ensures ParsePromptVariables("{{{{a}}}}") == ["a"]
    ensures Rendered("{{{{a}}}}", [("a", "a")]) == "{{a}}"
    ensures ParsePromptVariables("{{a}}") == ["a"]
  {
    NestedBracesParse();
    NestedBracesRender();
    SinglePlaceholderParse();
  }

  /** Entries are applied in order: a value may itself introduce a later key's placeholder. */
  lemma SubstitutionFollowsEntryOrder()
    ensures Rendered("{{a}}", [("a", "{{b}}"), ("b", "x")]) == "x"
    ensures Rendered("{{a}}", [("b", "x"), ("a", "{{b}}")]) == "{{b}}"
  {
    var pa := Placeholder("a");
    var pb := Placeholder("b");
    assert [("a", "{{b}}"), ("b", "x")][..1] == [("a", "{{b}}")];
    assert [("b", "x"), ("a", "{{b}}")][..1] == [("b", "x")];
    ReplaceOtherName([]);
    assert ReplaceIn(pa, "{{b}}", [], "{{a}}") == "{{b}}";
    assert ReplaceIn(pb, "x", [], "{{b}}") == "x";
  }
}

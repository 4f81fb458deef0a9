/**
 * `extractCodeBlocks`: scans message text for fenced blocks
 * ("```" language newline body "```"), the way a global regular expression
 * with a word-character language and a lazy body walks the text, and keeps
 * the python and mermaid ones, numbered in order of appearance.
 */
module CodeBlockExtractor {
  import opened Common
  import opened ChatTypes
  import opened Lists

  const FenceMark: string := "```"

  /** The first fence mark at or after `from`. */
  function FindFence(s: string, from: nat): (r: Option<nat>)
    requires from <= |s|
    ensures r.Some? ==> from <= r.value && OccursAt(s, FenceMark, r.value)
    ensures r.Some? ==> forall k :: from <= k < r.value ==> !OccursAt(s, FenceMark, k)
    ensures r.None? ==> forall k :: from <= k <= |s| ==> !OccursAt(s, FenceMark, k)
    decreases |s| - from
  {
    if OccursAt(s, FenceMark, from) then Some(from)
    else if from + 3 > |s| then None
    else FindFence(s, from + 1)
  }

  /** One match of the fence pattern; it spans `s[start..end]`. */
  datatype FenceMatch = FenceMatch(start: int, lang: string, body: string, end: int)

  /** The text a match spans, rebuilt from its parts. */
  function Spelled(m: FenceMatch): string
  {
    FenceMark + m.lang + "\n" + m.body + FenceMark
  }

  /**
   * `m` is a match of the pattern in `s`: a fence mark, a non-empty run of
   * word characters, a newline, and a body in which no fence mark starts
   * before the closing one (the body is lazy).
   */
  predicate WellFormed(s: string, m: FenceMatch)
  {
    && 0 <= m.start && m.start + |Spelled(m)| == m.end <= |s|
    && s[m.start..m.end] == Spelled(m)
    && |m.lang| > 0
    && (forall k :: 0 <= k < |m.lang| ==> IsWordChar(m.lang[k]))
    && (forall k :: m.end - 3 - |m.body| <= k < m.end - 3 ==> !OccursAt(s, FenceMark, k))
  }

  /** The match of the pattern that starts exactly at `i`, if any. */
  function MatchAt(s: string, i: nat): (r: Option<FenceMatch>)
    requires i <= |s|
    ensures r.Some? ==> r.value.start == i && WellFormed(s, r.value)
    ensures !OccursAt(s, FenceMark, i) ==> r.None?
  {
    if !OccursAt(s, FenceMark, i) then None
    else
      var n := WordRun(s, i + 3);
      var j := i + 3 + n;
      if n == 0 || j >= |s| || s[j] != '\n' then None
      else
        match FindFence(s, j + 1)
        case None => None
        case Some(k) =>
          MatchWellFormed(s, i, j, k);
          Some(FenceMatch(i, s[i + 3..j], s[j + 1..k], k + 3))
  }

  /** The parts found by `MatchAt` form a match. */
  lemma MatchWellFormed(s: string, i: nat, j: nat, k: nat)
    requires OccursAt(s, FenceMark, i) && i + 3 < j < |s| && s[j] == '\n'
    requires forall q :: i + 3 <= q < j ==> IsWordChar(s[q])
    requires FindFence(s, j + 1) == Some(k)
    ensures WellFormed(s, FenceMatch(i, s[i + 3..j], s[j + 1..k], k + 3))
  {
    var lang, body := s[i + 3..j], s[j + 1..k];
    assert forall q :: 0 <= q < |lang| ==> lang[q] == s[i + 3 + q];
    SpanSpelled(s, i, j, k);
  }

  /** A span from one fence mark to another, with a newline between, is spelled by its parts. */
  lemma SpanSpelled(s: string, i: nat, j: nat, k: nat)
    requires i + 3 <= j < k && k + 3 <= |s|
    requires s[i..i + 3] == FenceMark && s[j] == '\n' && s[k..k + 3] == FenceMark
    ensures s[i..k + 3] == Spelled(FenceMatch(i, s[i + 3..j], s[j + 1..k], k + 3))
  {
    var lang, body := s[i + 3..j], s[j + 1..k];
    assert s[j..j + 1] == "\n";
    calc {
      s[i..k + 3];
      { SliceJoin(s, i, i + 3, k + 3); }
      s[i..i + 3] + s[i + 3..k + 3];
      { SliceJoin(s, i + 3, j, k + 3); }
      FenceMark + (lang + s[j..k + 3]);
      { SliceJoin(s, j, j + 1, k + 3); SliceJoin(s, j + 1, k, k + 3); }
      FenceMark + (lang + ("\n" + (body + FenceMark)));
      { SeqAssoc(lang, "\n", body + FenceMark);
        SeqAssoc(lang + "\n", body, FenceMark);
        SeqAssoc(FenceMark, lang + "\n" + body, FenceMark);
        SeqAssoc(FenceMark, lang + "\n", body);
        SeqAssoc(FenceMark, lang, "\n"); }
      FenceMark + lang + "\n" + body + FenceMark;
    }
  }

  /** `a` ends where `b` starts or earlier. */
  predicate EndsBefore(a: FenceMatch, b: FenceMatch)
  {
    a.end <= b.start
  }

  /** Matches in the order of the text, none overlapping another. */
  predicate InTextOrder(ms: seq<FenceMatch>)
  {
    forall a, b :: 0 <= a < b < |ms| ==> EndsBefore(ms[a], ms[b])
  }

  /** All matches from offset `i` on, each search resuming where the last match ended. */
  function Matches(s: string, i: nat): (r: seq<FenceMatch>)
    requires i <= |s|
    ensures forall k :: 0 <= k < |r| ==> WellFormed(s, r[k]) && i <= r[k].start
    ensures InTextOrder(r)
    decreases |s| - i
  {
    if i == |s| then []
    else
      match MatchAt(s, i)
      case Some(m) => [m] + Matches(s, m.end)
      case None => Matches(s, i + 1)
  }

  /** The languages kept, compared after lower-casing. */
  predicate IsExtractedLanguage(lang: string)
  {
    Lower(lang) == "python" || Lower(lang) == "mermaid"
  }

  function KeepsFence(): FenceMatch -> bool
  {
    (m: FenceMatch) => IsExtractedLanguage(m.lang)
  }

  /** The `filter` on the language: exactly the python and mermaid matches, in their order. */
  function Kept(ms: seq<FenceMatch>): (r: seq<FenceMatch>)
    ensures |r| <= |ms|
    ensures forall k :: 0 <= k < |r| ==> r[k] in ms && IsExtractedLanguage(r[k].lang)
    ensures forall k :: 0 <= k < |ms| && IsExtractedLanguage(ms[k].lang) ==> ms[k] in r
  {
    FilterKeepsAll(ms, KeepsFence());
    Filter(ms, KeepsFence())
  }

  /** Keeping some matches keeps them in the order of the text. */
  lemma KeptInTextOrder(ms: seq<FenceMatch>)
    requires InTextOrder(ms)
    ensures InTextOrder(Kept(ms))
  {
    FilterKeepsPairwise(ms, KeepsFence(), (a: FenceMatch, b: FenceMatch) => EndsBefore(a, b));
  }

  /** The block a kept fence becomes, with its position among the kept fences as id. */
  function ToBlock(m: FenceMatch, index: nat): CodeBlock
  {
    CodeBlock(NatToString(index), Trim(m.body), Lower(m.lang))
  }

  function Numbered(ms: seq<FenceMatch>, first: nat): (r: seq<CodeBlock>)
    ensures |r| == |ms|
  {
    if ms == [] then [] else [ToBlock(ms[0], first)] + Numbered(ms[1..], first + 1)
  }

  lemma {:induction false} NumberedAt(ms: seq<FenceMatch>, first: nat, k: nat, at: nat)
    requires k < |ms| && at == first + k
    ensures Numbered(ms, first)[k] == ToBlock(ms[k], at)
  {
    var tail := Numbered(ms[1..], first + 1);
    assert Numbered(ms, first) == [ToBlock(ms[0], first)] + tail;
    if k > 0 {
      NumberedAt(ms[1..], first + 1, k - 1, at);
      ConsAt(ToBlock(ms[0], first), tail, k);
      assert ms[1..][k - 1] == ms[k];
    }
  }

  /** `extractCodeBlocks(content)`: one block per fence with a kept language. */
  function ExtractCodeBlocks(content: string): (r: seq<CodeBlock>)
    ensures |r| == |Kept(Matches(content, 0))|
  {
    Numbered(Kept(Matches(content, 0)), 0)
  }

  /**
   * The k-th block has id `String(k)`; it comes from the k-th kept fence of
   * the text, with its language lower-cased (python or mermaid) and its body
   * trimmed at both ends and otherwise copied verbatim.
   */
  lemma ExtractedBlockAt(content: string, k: nat)
    requires k < |ExtractCodeBlocks(content)|
    ensures var b := ExtractCodeBlocks(content)[k];
      var m := Kept(Matches(content, 0))[k];
      && m in Matches(content, 0) && WellFormed(content, m)
      && b.id == NatToString(k)
      && b.language == Lower(m.lang)
      && (b.language == "python" || b.language == "mermaid")
      && b.content == Trim(m.body)
      && (b.content == [] || (!IsSpace(b.content[0]) && !IsSpace(b.content[|b.content| - 1])))
  {
    var ms := Matches(content, 0);
    var kept := Kept(ms);
    KeptBlock(kept, k);
    var i :| 0 <= i < |ms| && ms[i] == kept[k];
  }

  lemma KeptBlock(kept: seq<FenceMatch>, k: nat)
    requires k < |kept| && IsExtractedLanguage(kept[k].lang)
    ensures var b := Numbered(kept, 0)[k];
      && b.id == NatToString(k)
      && b.language == Lower(kept[k].lang)
      && (b.language == "python" || b.language == "mermaid")
      && b.content == Trim(kept[k].body)
      && (b.content == [] || (!IsSpace(b.content[0]) && !IsSpace(b.content[|b.content| - 1])))
  {
    NumberedAt(kept, 0, k, k);
    TrimShape(kept[k].body);
  }

  /** Every python or mermaid fence of the text becomes a block, numbered by its place among the kept fences. */
  lemma ExtractedFenceGivesBlock(content: string, i: nat)
    requires i < |Matches(content, 0)| && IsExtractedLanguage(Matches(content, 0)[i].lang)
    ensures exists k :: 0 <= k < |ExtractCodeBlocks(content)| && ExtractCodeBlocks(content)[k] == ToBlock(Matches(content, 0)[i], k)
  {
    var ms := Matches(content, 0);
    var k := KeptFenceGivesBlock(ms, Kept(ms), i);
    assert ExtractCodeBlocks(content)[k] == ToBlock(ms[i], k);
  }

  lemma KeptFenceGivesBlock(ms: seq<FenceMatch>, kept: seq<FenceMatch>, i: nat) returns (k: nat)
    requires kept == Kept(ms)
    requires i < |ms| && IsExtractedLanguage(ms[i].lang)
    ensures k < |kept| && Numbered(kept, 0)[k] == ToBlock(ms[i], k)
  {
    FilterKeeps(ms, KeepsFence(), i);
    k :| 0 <= k < |kept| && kept[k] == ms[i];
    NumberedAt(kept, 0, k, k);
  }

  /** Blocks come in the order their fences appear in the text: an earlier block's fence ends before a later one's starts. */
  lemma ExtractedInTextOrder(content: string, a: nat, b: nat)
    requires a < b < |ExtractCodeBlocks(content)|
    ensures EndsBefore(Kept(Matches(content, 0))[a], Kept(Matches(content, 0))[b])
  {
    KeptInTextOrder(Matches(content, 0));
  }

  /** Block ids are distinct. */
  lemma ExtractedIdsDistinct(content: string, i: nat, j: nat)
    requires i < j < |ExtractCodeBlocks(content)|
    ensures ExtractCodeBlocks(content)[i].id != ExtractCodeBlocks(content)[j].id
  {
    ExtractedBlockAt(content, i);
    ExtractedBlockAt(content, j);
    NatToStringInjective(i, j);
  }

  /** Text without a fence mark yields no match from any offset. */
  lemma {:induction false} NoFenceNoMatches(s: string, i: nat)
    requires i <= |s|
    requires forall k :: i <= k <= |s| ==> !OccursAt(s, FenceMark, k)
    ensures Matches(s, i) == []
    decreases |s| - i
  {
    if i < |s| {
      NoFenceNoMatches(s, i + 1);
    }
  }

  /** Empty text, or text without any fence, has no code blocks. */
  lemma NoFenceNoBlocks(content: string)
    requires !Contains(content, FenceMark)
    ensures ExtractCodeBlocks(content) == []
  {
    NoFenceNoMatches(content, 0);
  }

  /** A fence whose mark is not followed by a word character does not start a match. */
  lemma FenceWithoutLanguageIgnored(s: string, i: nat)
    requires i + 3 < |s| && OccursAt(s, FenceMark, i) && !IsWordChar(s[i + 3])
    ensures MatchAt(s, i) == None
  {
  }
}

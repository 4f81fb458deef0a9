/**
 * Model helpers, as their tests fix them: the enabled LLM connections, and
 * whether a model name denotes a vision-capable model, decided by a list of
 * name patterns matched case-insensitively.
 */
module ModelUtils {
  import opened Common
  import opened Lists
  import opened LlmConnections

  function IsEnabled(): LlmConnection -> bool
  {
    (c: LlmConnection) => c.enabled
  }

  /** `getEnabledLLMConnections`: the enabled connections, in their order. */
  function EnabledConnections(connections: seq<LlmConnection>): (r: seq<LlmConnection>)
    ensures |r| <= |connections|
    ensures forall k :: 0 <= k < |r| ==> r[k].enabled && r[k] in connections
  {
    Filter(connections, IsEnabled())
  }

  /** Every enabled connection is kept. */
  lemma EnabledConnectionKept(connections: seq<LlmConnection>, i: nat)
    requires i < |connections| && connections[i].enabled
    ensures connections[i] in EnabledConnections(connections)
  {
    FilterKeeps(connections, IsEnabled(), i);
  }

  /** Two enabled connections are kept in their relative order. */
  lemma EnabledConnectionsExact(connections: seq<LlmConnection>, i: nat, j: nat)
    requires i < j < |connections| && connections[i].enabled && connections[j].enabled
    ensures var r := EnabledConnections(connections);
      exists a, b :: 0 <= a < b < |r| && r[a] == connections[i] && r[b] == connections[j]
  {
    FilterKeepsOrder(connections, IsEnabled(), i, j);
    assert EnabledConnections(connections) == Filter(connections, IsEnabled());
  }

  /** With no enabled connection (in particular with none at all) the result is empty. */
  lemma NoneEnabledGivesEmpty(connections: seq<LlmConnection>)
    requires forall k :: 0 <= k < |connections| ==> !connections[k].enabled
    ensures EnabledConnections(connections) == []
  {
    FilterNone(connections, IsEnabled());
  }

  /**
   * `isVisionModel`: `null`, `undefined` (`None`) and `''` are not; any other
   * name is when its lower-cased form contains one of the lower-cased patterns.
   */
  predicate IsVisionModel(model: Option<string>, patterns: seq<string>)
  {
    model.Some? && model.value != "" && exists k :: 0 <= k < |patterns| && Contains(Lower(model.value), Lower(patterns[k]))
  }

  /** What the tests require of `getVisionModelPatterns()`: non-empty and naming these families. */
  predicate KnownPatterns(patterns: seq<string>)
  {
    && |patterns| > 0
    && "gpt-4-vision" in patterns && "gpt-4-turbo" in patterns && "gpt-4o" in patterns
    && "claude-3" in patterns && "gemini-pro-vision" in patterns && "llava" in patterns
  }

  lemma {:induction false} LowerIdempotent(s: string)
    ensures Lower(Lower(s)) == Lower(s)
  {
    var l := Lower(s);
    forall i | 0 <= i < |s|
      ensures Lower(l)[i] == l[i]
    {
      assert l[i] == LowerChar(s[i]);
    }
  }

  /** Missing and empty names are never vision models, whatever the patterns. */
  lemma NoNameNoVision(patterns: seq<string>)
    ensures !IsVisionModel(None, patterns) && !IsVisionModel(Some(""), patterns)
  {
  }

  /** The decision does not depend on letter case. */
  lemma VisionCaseInsensitive(model: string, patterns: seq<string>)
    ensures IsVisionModel(Some(model), patterns) <==> IsVisionModel(Some(Lower(model)), patterns)
  {
    LowerIdempotent(model);
  }

  /** A name containing a listed pattern is a vision model: `llava` matches inside `bakllava`. */
  lemma PatternInsideName(patterns: seq<string>)
    requires KnownPatterns(patterns)
    ensures IsVisionModel(Some("bakllava"), patterns)
  {
    var k :| 0 <= k < |patterns| && patterns[k] == "llava";
    var m := "bakllava";
    assert Lower(m) == m;
    assert Lower("llava") == "llava";
    assert m[3..8] == "llava";
    assert OccursAt(Lower(m), Lower(patterns[k]), 3);
  }
}

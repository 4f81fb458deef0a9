/**
 * The slash-command menu of the chat input, as its tests fix it: typing `/`
 * at the start of the input lists the saved prompts whose name contains the
 * text after it, case-insensitively; `close()` hides the menu.
 */
module SlashCommand {
  import opened Common
  import opened Lists

  datatype Prompt = Prompt(id: string, name: string, content: string)

  datatype Detection = Detection(isActive: bool, query: string)

  /** Active when the input starts with `/` and the menu was not closed; the query is the text after `/`. */
  function Detect(input: string, closed: bool): (d: Detection)
    ensures d.isActive <==> !closed && StartsWith(input, "/")
    ensures d.isActive ==> input == "/" + d.query
    ensures !d.isActive ==> d.query == ""
  {
    if !closed && StartsWith(input, "/") then Detection(true, input[1..]) else Detection(false, "")
  }

  predicate NameMatches(prompt: Prompt, query: string)
  {
    Contains(Lower(prompt.name), Lower(query))
  }

  function MatchesQuery(query: string): Prompt -> bool
  {
    (p: Prompt) => NameMatches(p, query)
  }

  /** The listed prompts: none when inactive, else those whose name matches, in order. */
  function Filtered(prompts: seq<Prompt>, d: Detection): (r: seq<Prompt>)
    ensures !d.isActive ==> r == []
    ensures |r| <= |prompts|
    ensures forall k :: 0 <= k < |r| ==> r[k] in prompts && NameMatches(r[k], d.query)
  {
    if d.isActive then Filter(prompts, MatchesQuery(d.query)) else []
  }

  /** Every prompt name contains the empty query, so a lone `/` lists every prompt. */
  lemma {:induction false} LoneSlashListsAll(prompts: seq<Prompt>)
    ensures Filtered(prompts, Detect("/", false)) == prompts
  {
    var d := Detect("/", false);
    assert StartsWith("/", "/");
    assert d.isActive && "/" == "/" + d.query;
    assert d.query == "";
    var keep := MatchesQuery("");
    forall k | 0 <= k < |prompts|
      ensures keep(prompts[k])
    {
      assert OccursAt(Lower(prompts[k].name), "", 0);
    }
    FilterAll(prompts, keep);
  }

  /** A prompt whose name contains the query, in any letter case, is listed. */
  lemma MatchingPromptListed(prompts: seq<Prompt>, input: string, i: nat)
    requires i < |prompts| && StartsWith(input, "/")
    requires NameMatches(prompts[i], input[1..])
    ensures prompts[i] in Filtered(prompts, Detect(input, false))
  {
    FilterKeeps(prompts, MatchesQuery(input[1..]), i);
  }

  /** The menu's state: the loaded prompts and the flag `close()` sets. */
  class SlashMenu {
    var prompts: seq<Prompt>
    var closed: bool

    constructor ()
      ensures prompts == [] && !closed
    {
      prompts := [];
      closed := false;
    }

    /** The prompt fetch: a successful load replaces the prompts, a failed one keeps them. */
    method LoadPrompts(result: Option<seq<Prompt>>)
      modifies this
      ensures result.Some? ==> prompts == result.value
      ensures result.None? ==> prompts == old(prompts)
      ensures closed == old(closed)
    {
      if result.Some? {
        prompts := result.value;
      }
    }

    /** `close()`: the menu is inactive whatever the input. */
    method Close()
      modifies this
      ensures closed && prompts == old(prompts)
      ensures forall input :: !Detect(input, closed).isActive
    {
      closed := true;
    }
  }

  /** Empty input never opens the menu. */
  lemma EmptyInputInactive(closed: bool)
    ensures !Detect("", closed).isActive && Filtered([], Detect("", closed)) == []
  {
  }
}

/**
 * The @-mention menu of the chat input: typing `@` at the start of the input
 * opens a list of installed agents filtered by the text after it; the arrow
 * keys move a highlighted index, Enter picks the highlighted agent and
 * Escape closes the menu until a new trigger is typed.
 */
module AgentMention {
  import opened Common
  import opened Lists

  /** An installed agent, by the manifest fields the menu searches. */
  datatype Agent = Agent(id: string, name: string)

  datatype Key = ArrowDown | ArrowUp | Enter | Escape | OtherKey

  /** `@` at the start, followed by nothing or by a character other than whitespace. */
  predicate HasValidTrigger(input: string)
  {
    StartsWith(input, "@") && (|input| == 1 || !IsSpace(input[1]))
  }

  /** The detected mention: whether the menu is active and the query typed after `@`. */
  datatype Detection = Detection(isActive: bool, query: string)

  /** The text after `@` up to the first space (not any whitespace: `indexOf(' ')`). */
  function QueryOf(input: string): (q: string)
    requires StartsWith(input, "@")
    ensures |q| < |input| && q == input[1..1 + |q|]
    ensures ' ' !in q
    ensures 1 + |q| == |input| || input[1 + |q|] == ' '
  {
    var after := input[1..];
    after[..IndexOf(after, ' ', 0)]
  }

  /** The `isActive` / `query` memo. */
  function Detect(input: string, forceClosed: bool): (d: Detection)
    ensures d.isActive <==> !forceClosed && HasValidTrigger(input)
    ensures !d.isActive ==> d.query == ""
    ensures d.isActive ==> d.query == QueryOf(input)
  {
    if forceClosed || !StartsWith(input, "@") then Detection(false, "")
    else if |input| > 1 && IsSpace(input[1]) then Detection(false, "")
    else Detection(true, QueryOf(input))
  }

  /** An active query is blank exactly when it is empty: it never starts with whitespace. */
  lemma ActiveQueryBlankIffEmpty(input: string, forceClosed: bool)
    requires Detect(input, forceClosed).isActive
    ensures var q := Detect(input, forceClosed).query;
      Trim(q) == [] <==> q == []
  {
    var q := Detect(input, forceClosed).query;
    TrimEmptyIffAllSpace(q);
    if q != [] {
      assert q[0] == input[1];
    }
  }

  /** The query is a case-insensitive part of the agent's id or name. */
  predicate Matches(agent: Agent, query: string)
  {
    Contains(Lower(agent.id), Lower(query)) || Contains(Lower(agent.name), Lower(query))
  }

  function MatchesQuery(query: string): Agent -> bool
  {
    (a: Agent) => Matches(a, query)
  }

  /** The `filteredAgents` memo: none when inactive, all for a blank query, else the matching ones in order. */
  function Filtered(agents: seq<Agent>, d: Detection): (r: seq<Agent>)
    ensures !d.isActive ==> r == []
    ensures d.isActive && Trim(d.query) == [] ==> r == agents
    ensures d.isActive && Trim(d.query) != [] ==> r == Filter(agents, MatchesQuery(d.query))
    ensures forall k :: 0 <= k < |r| ==> r[k] in agents
  {
    if !d.isActive then []
    else if Trim(d.query) == [] then agents
    else Filter(agents, MatchesQuery(d.query))
  }

  /** Every agent matches the empty query, so a lone `@` lists them all. */
  lemma LoneTriggerListsAll(agents: seq<Agent>)
    ensures Filtered(agents, Detect("@", false)) == agents
  {
    assert Detect("@", false).query == "";
  }

  /** A matching agent reaches the list and a non-matching one does not. */
  lemma FilteredIff(agents: seq<Agent>, d: Detection, i: nat)
    requires d.isActive && Trim(d.query) != [] && i < |agents|
    ensures Matches(agents[i], d.query) ==> agents[i] in Filtered(agents, d)
    ensures forall k :: 0 <= k < |Filtered(agents, d)| ==> Matches(Filtered(agents, d)[k], d.query)
  {
    if Matches(agents[i], d.query) {
      FilterKeeps(agents, MatchesQuery(d.query), i);
    }
  }

  /** ArrowDown: `Math.min(i + 1, count - 1)`. */
  function NextIndex(i: int, count: nat): (r: int)
    ensures r <= count - 1 && r <= i + 1
    ensures r == i + 1 || r == count - 1
  {
    if i + 1 < count - 1 then i + 1 else count - 1
  }

  /** ArrowUp: `Math.max(i - 1, 0)`. */
  function PrevIndex(i: int): (r: int)
    ensures r >= 0 && r >= i - 1
    ensures r == i - 1 || r == 0
  {
    if i - 1 > 0 then i - 1 else 0
  }

  /** On a non-empty list the arrow keys keep a valid index valid. */
  lemma ArrowsKeepIndexInRange(i: int, count: nat)
    requires 0 <= i < count
    ensures 0 <= NextIndex(i, count) < count
    ensures 0 <= PrevIndex(i) < count
  {
  }

  /** On an empty list ArrowDown moves the index to -1, where Enter finds no agent. */
  lemma ArrowDownOnEmptyList(i: int)
    requires i >= -1
    ensures NextIndex(i, 0) == -1
  {
  }

  /** The input changed from one without a valid trigger to one with it. */
  predicate IsNewTrigger(prev: string, input: string)
  {
    input != prev && !HasValidTrigger(prev) && HasValidTrigger(input)
  }

  /**
   * Whether the menu is still closed by Escape after the inputs `inputs`
   * arrive one by one, `prev` being the input before them: the effect of
   * `InputChanged` replayed. An open menu never closes on an input change.
   */
  function ClosedAfter(closed: bool, prev: string, inputs: seq<string>): (r: bool)
    ensures !closed ==> !r
    decreases |inputs|
  {
    if inputs == [] then closed
    else ClosedAfter(closed && !IsNewTrigger(prev, inputs[0]), inputs[0], inputs[1..])
  }

  /** The menu's state: the loaded agents, the highlighted index, the Escape flag and the previous input. */
  class MentionMenu {
    var agents: seq<Agent>
    var selectedIndex: int
    var forceClosed: bool
    var prevInput: string

    /** The highlighted index never drops below -1 (the value ArrowDown leaves on an empty list). */
    predicate Valid()
      reads this
    {
      selectedIndex >= -1
    }

    constructor ()
      ensures Valid()
      ensures agents == [] && selectedIndex == 0 && !forceClosed && prevInput == ""
    {
      agents := [];
      selectedIndex := 0;
      forceClosed := false;
      prevInput := "";
    }

    /** `loadAgents`: a successful load replaces the agents, a failed one keeps them. */
    method LoadAgents(result: Option<seq<Agent>>)
      modifies this
      ensures result.Some? ==> agents == result.value
      ensures result.None? ==> agents == old(agents)
      ensures selectedIndex == old(selectedIndex) && forceClosed == old(forceClosed) && prevInput == old(prevInput)
    {
      if result.Some? {
        agents := result.value;
      }
    }

    /**
     * The effect on a new input: a closed menu reopens only when the input
     * changed from one without a valid trigger to one with it.
     */
    method InputChanged(input: string)
      modifies this
      ensures forceClosed == (old(forceClosed) && !IsNewTrigger(old(prevInput), input))
      ensures prevInput == input
      ensures agents == old(agents) && selectedIndex == old(selectedIndex)
    {
      if forceClosed {
        var isNewTrigger := input != prevInput && !HasValidTrigger(prevInput) && HasValidTrigger(input);
        if isNewTrigger {
          forceClosed := false;
        }
      }
      prevInput := input;
    }

    /** The effect on a new number of listed agents: a non-empty list highlights its first entry. */
    method ListLengthChanged(count: nat)
      requires Valid()
      modifies this
      ensures Valid()
      ensures count > 0 ==> selectedIndex == 0
      ensures count == 0 ==> selectedIndex == old(selectedIndex)
      ensures agents == old(agents) && forceClosed == old(forceClosed) && prevInput == old(prevInput)
    {
      if count > 0 {
        selectedIndex := 0;
      }
    }

    /** `handleKeyDown`: whether the key was handled, and the agent picked by Enter. */
    method KeyDown(input: string, key: Key) returns (handled: bool, picked: Option<Agent>)
      requires Valid()
      modifies this
      ensures Valid()
      ensures var d := Detect(input, old(forceClosed));
        var list := Filtered(old(agents), d);
        && (!d.isActive ==> !handled && picked.None? && selectedIndex == old(selectedIndex) && forceClosed == old(forceClosed))
        && (d.isActive && key == ArrowDown ==> handled && picked.None? && selectedIndex == NextIndex(old(selectedIndex), |list|) && forceClosed == old(forceClosed))
        && (d.isActive && key == ArrowUp ==> handled && picked.None? && selectedIndex == PrevIndex(old(selectedIndex)) && forceClosed == old(forceClosed))
        && (d.isActive && key == Enter ==>
              selectedIndex == old(selectedIndex) && forceClosed == old(forceClosed)
              && (handled <==> 0 <= old(selectedIndex) < |list|)
              && (handled ==> picked == Some(list[old(selectedIndex)]))
              && (!handled ==> picked.None?))
        && (d.isActive && key == Escape ==> handled && picked.None? && forceClosed && selectedIndex == old(selectedIndex))
        && (d.isActive && key == OtherKey ==> !handled && picked.None? && selectedIndex == old(selectedIndex) && forceClosed == old(forceClosed))
      ensures agents == old(agents) && prevInput == old(prevInput)
    {
      var d := Detect(input, forceClosed);
      var list := Filtered(agents, d);
      handled, picked := false, None;
      if d.isActive {
        match key
        case ArrowDown =>
          selectedIndex := NextIndex(selectedIndex, |list|);
          handled := true;
        case ArrowUp =>
          selectedIndex := PrevIndex(selectedIndex);
          handled := true;
        case Enter =>
          if 0 <= selectedIndex < |list| {
            picked := Some(list[selectedIndex]);
            handled := true;
          }
        case Escape =>
          forceClosed := true;
          handled := true;
        case OtherKey =>
      }
    }

    /** `close`: the highlight goes back to the top and the menu stays closed. */
    method Close()
      modifies this
      ensures Valid()
      ensures selectedIndex == 0 && forceClosed
      ensures agents == old(agents) && prevInput == old(prevInput)
    {
      selectedIndex := 0;
      forceClosed := true;
    }
  }

  /** Once closed, the menu is inactive whatever the input, until an input change reopens it. */
  lemma ClosedMenuIsInactive(input: string)
    ensures !Detect(input, true).isActive && Filtered([], Detect(input, true)) == []
  {
  }

  /** The input just before `inputs[k]`. */
  function Before(prev: string, inputs: seq<string>, k: nat): string
    requires k < |inputs|
  {
    if k == 0 then prev else inputs[k - 1]
  }

  /**
   * A menu closed by Escape stays closed through a run of inputs exactly
   * when none of them is a new trigger after the input before it.
   */
  lemma {:induction false} ClosedUntilNewTrigger(prev: string, inputs: seq<string>)
    ensures ClosedAfter(true, prev, inputs) <==>
      forall k :: 0 <= k < |inputs| ==> !IsNewTrigger(Before(prev, inputs, k), inputs[k])
    decreases |inputs|
  {
    if inputs != [] {
      var x, rest := inputs[0], inputs[1..];
      ClosedUntilNewTrigger(x, rest);
      assert forall j :: 0 <= j < |rest| ==> Before(x, rest, j) == Before(prev, inputs, j + 1) && rest[j] == inputs[j + 1];
      if !IsNewTrigger(prev, x) {
        if forall j :: 0 <= j < |rest| ==> !IsNewTrigger(Before(x, rest, j), rest[j]) {
          forall k | 0 <= k < |inputs|
            ensures !IsNewTrigger(Before(prev, inputs, k), inputs[k])
          {
            if k > 0 {
              assert Before(x, rest, k - 1) == Before(prev, inputs, k) && rest[k - 1] == inputs[k];
            }
          }
        }
      }
    }
  }

  /**
   * Editing the query after Escape, or retyping the same trigger, never
   * reopens the menu: while every input keeps a valid trigger it stays
   * closed. Clearing the input and typing `@` again does reopen it.
   */
  lemma TriggerKeptStaysClosed(prev: string, inputs: seq<string>)
    requires HasValidTrigger(prev)
    requires forall k :: 0 <= k < |inputs| ==> HasValidTrigger(inputs[k])
    ensures ClosedAfter(true, prev, inputs)
    ensures !ClosedAfter(true, prev, ["", "@"])
  {
    ClosedUntilNewTrigger(prev, inputs);
    assert !HasValidTrigger("");
    assert HasValidTrigger("@") by { assert "@"[..1] == "@"; }
  }
}

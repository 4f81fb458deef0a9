/**
 * The stream buffer of `MarkdownContent`: while a reply streams, the text on
 * screen (`streamBuffer`) only catches up with the incoming content in larger
 * steps, either at once (many new lines or a large jump) or when no further
 * change arrives for 800 ms. React's effects, their clean-up and the single
 * timer are modelled as explicit events on one object.
 */
module StreamRenderGate {
  import opened Common

  const CommitDelayMs: int := 800
  const NewlineThreshold: int := 5
  const LengthThreshold: int := 500

  /** The code of '\n'. */
  const Newline: nat := 10

  /** `s.length`: the number of UTF-16 code units, which a character outside the Basic Multilingual Plane counts twice. */
  function Length(s: string): (n: nat)
    ensures n >= |s|
  {
    |CodeUnits(s)|
  }

  /** Number of '\n' code units in `units` (the `/\n/g` match count). */
  function NewlineCount(units: seq<nat>): (n: nat)
    ensures n <= |units|
    ensures n == 0 <==> forall k :: 0 <= k < |units| ==> units[k] != Newline
  {
    if units == [] then 0
    else
      var rest := NewlineCount(units[1..]);
      assert forall k :: 1 <= k < |units| ==> units[k] == units[1..][k - 1];
      (if units[0] == Newline then 1 else 0) + rest
  }

  /** `content.slice(from)` for a non-negative start, on code units: empty once `from` passes the end. */
  function Chunk(units: seq<nat>, from: int): (r: seq<nat>)
    requires from >= 0
    ensures from <= |units| ==> r == units[from..]
    ensures from >= |units| ==> r == []
  {
    if from <= |units| then units[from..] else []
  }

  /** Whether a change commits at once rather than waiting for the timer; `committed` counts code units. */
  predicate CommitsAtOnce(content: string, committed: int)
    requires committed >= 0
  {
    NewlineCount(Chunk(CodeUnits(content), committed)) >= NewlineThreshold || Length(content) - committed > LengthThreshold
  }

  /** The new lines of two pieces of text add up. */
  lemma {:induction false} NewlineCountAppend(a: seq<nat>, b: seq<nat>)
    ensures NewlineCount(a + b) == NewlineCount(a) + NewlineCount(b)
  {
    if a != [] {
      assert (a + b)[0] == a[0] && (a + b)[1..] == a[1..] + b;
      NewlineCountAppend(a[1..], b);
    } else {
      assert a + b == b;
    }
  }

  /**
   * Five new lines since the last commit, or more than 500 new code units,
   * commit at once; exactly 500 new code units on fewer than five lines do
   * not, the length test being strict. Streaming more text never takes a
   * commit decision back.
   */
  lemma CommitThresholds(content: string, committed: nat, more: string)
    requires committed <= Length(content)
    ensures NewlineCount(CodeUnits(content)[committed..]) >= NewlineThreshold ==> CommitsAtOnce(content, committed)
    ensures Length(content) - committed == LengthThreshold && NewlineCount(CodeUnits(content)[committed..]) < NewlineThreshold ==>
      !CommitsAtOnce(content, committed)
    ensures CommitsAtOnce(content, committed) ==> CommitsAtOnce(content + more, committed)
  {
    var units := CodeUnits(content);
    CodeUnitsAppend(content, more);
    assert (units + CodeUnits(more))[committed..] == units[committed..] + CodeUnits(more);
    NewlineCountAppend(units[committed..], CodeUnits(more));
  }

  /**
   * The length test counts code units: from an empty buffer, more than 250
   * characters outside the Basic Multilingual Plane (emoji, say) commit at
   * once, although they are fewer than 500 characters.
   */
  lemma AstralTextCommits(content: string)
    requires forall k :: 0 <= k < |content| ==> (content[k] as int) >= 0x1_0000
    requires |content| > LengthThreshold / 2
    ensures CommitsAtOnce(content, 0)
  {
    AstralCodeUnits(content);
  }

  class StreamBuffer {
    /** The (sanitised) content prop and whether this message is the streaming one. */
    var content: string
    var streaming: bool
    /** `streamBuffer` and `lastUpdateLength.current`. */
    var buffer: string
    var committed: int
    /** The armed, not yet cleared 800 ms timer, with the content its callback will commit. */
    var timer: Option<string>
    /** Whether the last run of the content effect returned its clean-up. */
    var cleanupRegistered: bool

    /** The committed length is the buffer's length; a pending timer holds the current content. */
    predicate Valid()
      reads this
    {
      && committed == Length(buffer)
      && (timer.Some? ==> streaming && cleanupRegistered && timer.value == content)
    }

    /** What is rendered: the buffer while streaming, the whole content otherwise. */
    function Displayed(): (r: string)
      reads this
      ensures !streaming ==> r == content
      ensures streaming ==> r == buffer
    {
      if streaming then buffer else content
    }

    /** Mounting: state initialised from the content, then both effects run once. */
    constructor (initial: string, isStreaming: bool)
      ensures Valid()
      ensures content == initial && streaming == isStreaming
      ensures buffer == initial && committed == Length(initial) && timer == None
      ensures Displayed() == initial
    {
      content := initial;
      streaming := isStreaming;
      buffer := initial;
      committed := Length(initial);
      timer := None;
      cleanupRegistered := false;
      // The first effect re-initialises the same values; the second sees no difference.
    }

    /** The effect keyed on the streaming flag: a stream that starts takes the content as is. */
    method StartEffect()
      modifies this
      ensures streaming ==> buffer == content && committed == Length(content)
      ensures !streaming ==> buffer == old(buffer) && committed == old(committed)
      ensures content == old(content) && streaming == old(streaming)
      ensures timer == old(timer) && cleanupRegistered == old(cleanupRegistered)
    {
      if streaming {
        buffer := content;
        committed := Length(content);
      }
    }

    /** The effect keyed on content and streaming flag. */
    method ContentEffect()
      requires committed >= 0
      modifies this
      ensures content == old(content) && streaming == old(streaming)
      ensures !streaming || Length(content) == old(committed) ==>
        buffer == old(buffer) && committed == old(committed) && timer == old(timer) && !cleanupRegistered
      ensures streaming && Length(content) != old(committed) && CommitsAtOnce(content, old(committed)) ==>
        buffer == content && committed == Length(content) && timer == None && cleanupRegistered
      ensures streaming && Length(content) != old(committed) && !CommitsAtOnce(content, old(committed)) ==>
        buffer == old(buffer) && committed == old(committed) && timer == Some(content) && cleanupRegistered
    {
      cleanupRegistered := false;
      if !streaming {
        return;
      }
      var units := CodeUnits(content);
      var newLength := |units|;
      var diff := newLength - committed;
      if diff == 0 {
        return;
      }
      var chunk := Chunk(units, committed);
      var newlines := NewlineCount(chunk);
      if newlines >= NewlineThreshold || diff > LengthThreshold {
        timer := None;
        buffer := content;
        committed := newLength;
      } else {
        timer := Some(content);
      }
      cleanupRegistered := true;
    }

    /**
     * A render with new props. When neither the content nor the streaming flag
     * changed, React runs no effect. Otherwise the content effect's previous
     * clean-up clears the timer, then the effects run in declaration order.
     */
    method Render(newContent: string, newStreaming: bool)
      requires Valid()
      modifies this
      ensures Valid()
      ensures content == newContent && streaming == newStreaming
      ensures newContent == old(content) && newStreaming == old(streaming) ==>
        buffer == old(buffer) && committed == old(committed) && timer == old(timer)
      ensures (newContent != old(content) || newStreaming != old(streaming)) && !newStreaming ==>
        buffer == old(buffer) && committed == old(committed) && timer == None && Displayed() == newContent
      ensures newStreaming && !old(streaming) ==>
        buffer == newContent && committed == Length(newContent) && timer == None
      ensures newContent != old(content) && newStreaming && old(streaming) && Length(newContent) == old(committed) ==>
        buffer == old(buffer) && committed == old(committed) && timer == None
      ensures newContent != old(content) && newStreaming && old(streaming) && Length(newContent) != old(committed) ==>
        if CommitsAtOnce(newContent, old(committed)) then
          buffer == newContent && committed == Length(newContent) && timer == None
        else
          buffer == old(buffer) && committed == old(committed) && timer == Some(newContent)
      ensures old(buffer) <= old(content) <= newContent ==> old(committed) <= committed && buffer <= content
    {
      if newContent == content && newStreaming == streaming {
        return;
      }
      if buffer <= content <= newContent {
        LengthOfPrefix(buffer, newContent);
      }
      if cleanupRegistered {
        timer := None;
      }
      var streamingChanged := newStreaming != streaming;
      content := newContent;
      streaming := newStreaming;
      if streamingChanged {
        StartEffect();
      }
      ContentEffect();
    }

    /** The 800 ms timer fires: the content it captured becomes the buffer. */
    method Fire()
      requires Valid()
      modifies this
      ensures Valid()
      ensures old(timer).Some? ==> buffer == old(content) && committed == Length(old(content)) && timer == None
      ensures old(timer).None? ==> buffer == old(buffer) && committed == old(committed) && timer == None
      ensures content == old(content) && streaming == old(streaming)
      ensures old(buffer) <= old(content) ==> old(committed) <= committed && buffer <= content
    {
      if buffer <= content {
        LengthOfPrefix(buffer, content);
      }
      if timer.Some? {
        var captured := timer.value;
        buffer := captured;
        committed := Length(captured);
        timer := None;
      }
    }
  }
}

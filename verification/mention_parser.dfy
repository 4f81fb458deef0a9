/**
 * `parseMessageMentions`: agent mentions written at the very start of a chat
 * message ("@agent1 @agent2 text"). A mention is '@' followed by one or more
 * letters, digits, '.' or '-'; whitespace between mentions is skipped. The
 * text after the last mention, trimmed, is the cleaned content; a message
 * that does not start with a mention is returned untouched.
 */
module MentionParser {
  import opened Common

  predicate IsMentionChar(c: char)
  {
    IsAsciiLetter(c) || IsDigit(c) || c == '.' || c == '-'
  }

  /** Length of the run of mention characters at the start of `s`. */
  function MentionRun(s: string): (n: nat)
    ensures n <= |s|
    ensures forall k :: 0 <= k < n ==> IsMentionChar(s[k])
    ensures n == |s| || !IsMentionChar(s[n])
  {
    if s != [] && IsMentionChar(s[0]) then
      var n := 1 + MentionRun(s[1..]);
      assert forall k :: 1 <= k < n ==> s[k] == s[1..][k - 1];
      n
    else 0
  }

  /** `s` starts with '@' and a mention character. */
  predicate StartsWithMention(s: string)
  {
    |s| >= 2 && s[0] == '@' && IsMentionChar(s[1])
  }

  /** A well-formed mention name. */
  predicate IsName(name: string)
  {
    |name| > 0 && forall c :: 0 <= c < |name| ==> IsMentionChar(name[c])
  }

  /** The leading mentions of `s` and the text that follows them. */
  function Leading(s: string): (r: (seq<string>, string))
    ensures forall k :: 0 <= k < |r.0| ==> IsName(r.0[k])
    ensures !StartsWithMention(s) ==> r == ([], s)
    ensures |r.1| <= |s|
    decreases |s|
  {
    if !StartsWithMention(s) then ([], s)
    else
      var n := MentionRun(s[1..]);
      var name := s[1..1 + n];
      MentionRunIsName(s);
      var rest := TrimStart(s[1 + n..]);
      var (names, tail) := Leading(rest);
      ConsNames(name, names);
      ([name] + names, tail)
  }

  lemma ConsNames(name: string, names: seq<string>)
    requires IsName(name) && forall k :: 0 <= k < |names| ==> IsName(names[k])
    ensures forall k :: 0 <= k < |[name] + names| ==> IsName(([name] + names)[k])
  {
    assert forall k :: 0 <= k < |names| ==> ([name] + names)[k + 1] == names[k];
  }

  /** The mention characters after the '@' form a name. */
  lemma MentionRunIsName(s: string)
    requires StartsWithMention(s)
    ensures IsName(s[1..1 + MentionRun(s[1..])])
  {
    var n := MentionRun(s[1..]);
    var name := s[1..1 + n];
    assert forall c :: 0 <= c < n ==> name[c] == s[1..][c];
  }

  /** The result: mentions in order, and the cleaned content. */
  datatype Parsed = Parsed(mentions: seq<string>, cleanedContent: string)

  function ParseMessageMentions(content: string): (r: Parsed)
    ensures !StartsWithMention(content) ==> r == Parsed([], content)
    ensures r.mentions != [] <==> StartsWithMention(content)
    ensures r.mentions != [] ==> r.cleanedContent == Trim(Leading(content).1)
  {
    var (names, tail) := Leading(content);
    if names == [] then Parsed([], content) else Parsed(names, Trim(tail))
  }

  /** `null` and `undefined` are passed through with no mention. */
  datatype MaybeText = Text(s: string) | NullText | UndefinedText

  function ParseNullable(content: MaybeText): (r: (seq<string>, MaybeText))
    ensures !content.Text? ==> r == ([], content)
    ensures content.Text? ==>
      r.0 == ParseMessageMentions(content.s).mentions && r.1 == Text(ParseMessageMentions(content.s).cleanedContent)
  {
    match content
    case Text(s) =>
      var p := ParseMessageMentions(s);
      (p.mentions, Text(p.cleanedContent))
    case _ => ([], content)
  }

  /** Names written as "@name " one after the other, followed by `text`. */
  function Compose(names: seq<string>, text: string): string
  {
    if names == [] then text else "@" + names[0] + " " + Compose(names[1..], text)
  }

  /**
   * Inverse of `Compose`: writing mentions in front of a text that does not
   * start with whitespace or a mention gives those mentions back, with the
   * text as the rest.
   */
  lemma {:induction false} LeadingOfCompose(names: seq<string>, text: string)
    requires forall k :: 0 <= k < |names| ==> IsName(names[k])
    requires !StartsWithMention(text) && (text == [] || !IsSpace(text[0]))
    ensures Leading(Compose(names, text)) == (names, text)
  {
    if names != [] {
      var tail := names[1..];
      assert forall k :: 0 <= k < |tail| ==> tail[k] == names[k + 1];
      var rest := Compose(tail, text);
      assert Compose(names, text) == "@" + names[0] + " " + rest;
      ComposeStart(tail, text);
      LeadingStep(names[0], rest);
      LeadingOfCompose(tail, text);
      calc {
        Leading(Compose(names, text));
        Leading("@" + names[0] + " " + rest);
        ([names[0]] + Leading(rest).0, Leading(rest).1);
        ([names[0]] + tail, text);
        { HeadTail(names); }
        (names, text);
      }
    } else {
      assert Compose(names, text) == text;
    }
  }

  /** One "@name " in front of a text that does not start with whitespace. */
  lemma LeadingStep(name: string, rest: string)
    requires IsName(name) && (rest == [] || !IsSpace(rest[0]))
    ensures Leading("@" + name + " " + rest) == ([name] + Leading(rest).0, Leading(rest).1)
  {
    var s := "@" + name + " " + rest;
    MentionShape(name, rest);
    PrefixRun(name, " " + rest);
    TrimStartOneSpace(rest);
    LeadingUnfold(s, |name|, name, rest);
  }

  /** The pieces of "@name rest". */
  lemma MentionShape(name: string, rest: string)
    requires name != []
    ensures var s := "@" + name + " " + rest;
      && |s| >= 2 && s[0] == '@' && s[1] == name[0]
      && s[1..] == name + (" " + rest)
      && s[1..1 + |name|] == name && s[1 + |name|..] == " " + rest
  {
  }

  /** One mention taken off the front. */
  lemma LeadingUnfold(s: string, n: nat, name: string, after: string)
    requires StartsWithMention(s) && n == MentionRun(s[1..])
    requires name == s[1..1 + n] && after == TrimStart(s[1 + n..])
    ensures Leading(s) == ([name] + Leading(after).0, Leading(after).1)
  {
  }

  /** A composed text starts with a mention or with the (non-space) text. */
  lemma ComposeStart(names: seq<string>, text: string)
    requires forall k :: 0 <= k < |names| ==> IsName(names[k])
    requires text == [] || !IsSpace(text[0])
    ensures var s := Compose(names, text); s == [] || !IsSpace(s[0])
  {
  }

  lemma TrimStartOneSpace(rest: string)
    requires rest == [] || !IsSpace(rest[0])
    ensures TrimStart(" " + rest) == rest
  {
    var s := " " + rest;
    assert IsSpace(s[0]);
    assert SkipSpace(s, 0) == SkipSpace(s, 1);
    assert s[1..] == rest;
  }

  lemma {:induction false} PrefixRun(name: string, after: string)
    requires IsName(name) && after != [] && !IsMentionChar(after[0])
    ensures MentionRun(name + after) == |name|
  {
    if |name| > 1 {
      assert (name + after)[1..] == name[1..] + after;
      PrefixRun(name[1..], after);
    } else {
      assert (name + after)[1..] == after;
    }
  }

  /** Parsing composed mentions yields them and the trimmed text. */
  lemma ParseOfCompose(names: seq<string>, text: string)
    requires names != [] && forall k :: 0 <= k < |names| ==> IsName(names[k])
    requires !StartsWithMention(text) && (text == [] || !IsSpace(text[0]))
    ensures ParseMessageMentions(Compose(names, text)) == Parsed(names, Trim(text))
  {
    LeadingOfCompose(names, text);
  }
}

/**
 * The error text that crosses from the Rust back end to the front end.
 * `AppError` displays as "[Tag] detail" and is serialised as exactly that
 * string; `parseBackendError` on the front end splits such a string back
 * into a category and a message with the expression `^\[(.*?)\]\s?(.*)`.
 */
module AppErrors {
  import opened Common
  import opened JsValues

  /** The back-end error; the variants that wrap a library error carry that error's display text. */
  datatype AppError =
    | Database(detail: string)
    | NotFound(detail: string)
    | Validation(detail: string)
    | Io(detail: string)
    | Serialization(detail: string)
    | Tauri(detail: string)
    | Http(detail: string)
    | Llm(detail: string)
    | Python(detail: string)
    | Node(detail: string)
    | Mcp(detail: string)
    | Zip(detail: string)
    | Addon(detail: string)
    | Prompt(detail: string)
    | Generic(detail: string)

  /** The text between the brackets of each variant's display format. */
  function Tag(e: AppError): string
  {
    match e
    case Database(_) => "Database"
    case NotFound(_) => "Not Found"
    case Validation(_) => "Validation"
    case Io(_) => "IO"
    case Serialization(_) => "Serialization"
    case Tauri(_) => "Tauri"
    case Http(_) => "Network"
    case Llm(_) => "LLM"
    case Python(_) => "Python"
    case Node(_) => "Node"
    case Mcp(_) => "MCP"
    case Zip(_) => "Zip"
    case Addon(_) => "Addon"
    case Prompt(_) => "Prompt"
    case Generic(_) => "Error"
  }

  /** The variant a tag names, carrying `detail`; `None` for a text that is no tag. */
  function FromTag(tag: string, detail: string): (r: Option<AppError>)
    ensures r.Some? ==> r.value.detail == detail
  {
    if tag == "Database" then Some(Database(detail))
    else if tag == "Not Found" then Some(NotFound(detail))
    else if tag == "Validation" then Some(Validation(detail))
    else if tag == "IO" then Some(Io(detail))
    else if tag == "Serialization" then Some(Serialization(detail))
    else if tag == "Tauri" then Some(Tauri(detail))
    else if tag == "Network" then Some(Http(detail))
    else if tag == "LLM" then Some(Llm(detail))
    else if tag == "Python" then Some(Python(detail))
    else if tag == "Node" then Some(Node(detail))
    else if tag == "MCP" then Some(Mcp(detail))
    else if tag == "Zip" then Some(Zip(detail))
    else if tag == "Addon" then Some(Addon(detail))
    else if tag == "Prompt" then Some(Prompt(detail))
    else if tag == "Error" then Some(Generic(detail))
    else None
  }

  /** Distinct variants have distinct tags: the tag and the detail determine the error. */
  lemma TagDeterminesVariant(e: AppError)
    ensures FromTag(Tag(e), e.detail) == Some(e)
  {
  }

  /** Each tag is a single line without a closing bracket. */
  lemma TagIsPlain(e: AppError)
    ensures ']' !in Tag(e) && forall k :: 0 <= k < |Tag(e)| ==> !IsLineTerminator(Tag(e)[k])
  {
  }

  /** `Display`: "[" tag "] " detail. */
  function Display(e: AppError): (r: string)
    ensures StartsWith(r, "[" + Tag(e) + "] ")
    ensures r[|Tag(e)| + 3..] == e.detail
  {
    var r := "[" + Tag(e) + "] " + e.detail;
    assert r[..|Tag(e)| + 3] == "[" + Tag(e) + "] ";
    r
  }

  /** `Serialize`: the display string, written as a string value. */
  function Serialize(e: AppError): (r: JsValue)
    ensures r.Str? && ToJsString(r) == Display(e)
  {
    Str(Display(e))
  }

  /** The library errors that convert into an `AppError` with `?`, each with its display text. */
  datatype ForeignError =
    | SqliteError(text: string)
    | StdIoError(text: string)
    | SerdeJsonError(text: string)
    | TauriRuntimeError(text: string)
    | ReqwestError(text: string)
    | ZipArchiveError(text: string)

  /** The `From` conversions. */
  function FromForeign(f: ForeignError): (e: AppError)
    ensures e.detail == f.text
    ensures f.SqliteError? <==> e.Database?
    ensures f.StdIoError? <==> e.Io?
    ensures f.SerdeJsonError? <==> e.Serialization?
    ensures f.TauriRuntimeError? <==> e.Tauri?
    ensures f.ReqwestError? <==> e.Http?
    ensures f.ZipArchiveError? <==> e.Zip?
  {
    match f
    case SqliteError(t) => Database(t)
    case StdIoError(t) => Io(t)
    case SerdeJsonError(t) => Serialization(t)
    case TauriRuntimeError(t) => Tauri(t)
    case ReqwestError(t) => Http(t)
    case ZipArchiveError(t) => Zip(t)
  }

  predicate SingleLine(s: string)
  {
    forall k :: 0 <= k < |s| ==> !IsLineTerminator(s[k])
  }

  /** The `]` that ends the lazy `(.*?)` started at `i`: the first `]`, unless a line ends before it. */
  function CloseBracket(s: string, i: nat): (r: Option<nat>)
    requires i <= |s|
    ensures r.Some? ==> i <= r.value < |s| && s[r.value] == ']'
    ensures r.Some? ==> forall k :: i <= k < r.value ==> s[k] != ']' && !IsLineTerminator(s[k])
    ensures r.None? ==> forall k :: i <= k < |s| && s[k] == ']' ==> exists q :: i <= q < k && IsLineTerminator(s[q])
    decreases |s| - i
  {
    if i == |s| then None
    else if s[i] == ']' then Some(i)
    else if IsLineTerminator(s[i]) then None
    else CloseBracket(s, i + 1)
  }

  /** Length of the `(.*)` run at `i`: up to the end of the line. */
  function LineRun(s: string, i: nat): (n: nat)
    requires i <= |s|
    ensures i + n <= |s| && SingleLine(s[i..i + n])
    ensures i + n == |s| || IsLineTerminator(s[i + n])
    decreases |s| - i
  {
    if i == |s| || IsLineTerminator(s[i]) then 0
    else
      var rest := LineRun(s, i + 1);
      SingleLineCons(s, i, rest);
      1 + rest
  }

  lemma SingleLineCons(s: string, i: nat, n: nat)
    requires i + 1 + n <= |s| && !IsLineTerminator(s[i]) && SingleLine(s[i + 1..i + 1 + n])
    ensures SingleLine(s[i..i + 1 + n])
  {
    var whole, tail := s[i..i + 1 + n], s[i + 1..i + 1 + n];
    forall k | 0 <= k < |whole|
      ensures !IsLineTerminator(whole[k])
    {
      if k > 0 {
        assert whole[k] == tail[k - 1];
      }
    }
  }

  /** What `parseBackendError` returns: `category` is absent when the pattern does not match. */
  datatype ParsedError = ParsedError(category: Option<string>, message: string)

  function ParseBackendError(s: string): (r: ParsedError)
    ensures r.category.None? ==> r.message == s
    ensures r.category.Some? ==>
      var c := r.category.value;
      && StartsWith(s, "[" + c + "]") && ']' !in c && SingleLine(c)
    ensures r.category.Some? && r.message != s ==>
      var after := |r.category.value| + 2;
      && r.message != [] && SingleLine(r.message)
      && (OccursAt(s, r.message, after) || (after < |s| && IsSpace(s[after]) && OccursAt(s, r.message, after + 1)))
  {
    if s == [] || s[0] != '[' then ParsedError(None, s)
    else
      match CloseBracket(s, 1)
      case None => ParsedError(None, s)
      case Some(j) =>
        var c := s[1..j];
        CategoryShape(s, j);
        var k := if j + 1 < |s| && IsSpace(s[j + 1]) then j + 2 else j + 1;
        var m := s[k..k + LineRun(s, k)];
        assert OccursAt(s, m, k) && SingleLine(m);
        assert |c| + 2 == j + 1;
        ParsedError(Some(c), if m == [] then s else m)
  }

  /** The category found up to the bracket at `j`: a bracketed, single-line text without `]`. */
  lemma CategoryShape(s: string, j: nat)
    requires s != [] && s[0] == '[' && CloseBracket(s, 1) == Some(j)
    ensures s[..j + 1] == "[" + s[1..j] + "]" && ']' !in s[1..j] && SingleLine(s[1..j])
  {
    var c := s[1..j];
    assert forall q :: 0 <= q < |c| ==> c[q] == s[q + 1];
  }

  /** The pattern matches exactly when the text opens with `[` and a `]` closes it on the first line. */
  lemma ParseFindsCategoryIff(s: string)
    ensures ParseBackendError(s).category.Some? <==>
      s != [] && s[0] == '[' && exists j :: 1 <= j < |s| && s[j] == ']' && SingleLine(s[1..j])
  {
    if s != [] && s[0] == '[' {
      match CloseBracket(s, 1)
      case Some(j) =>
        assert forall k :: 0 <= k < j - 1 ==> s[1..j][k] == s[k + 1];
        assert SingleLine(s[1..j]);
      case None =>
        forall j | 1 <= j < |s| && s[j] == ']'
          ensures !SingleLine(s[1..j])
        {
          var q :| 1 <= q < j && IsLineTerminator(s[q]);
          assert s[1..j][q - 1] == s[q];
        }
    }
  }

  /** When nothing, or a line end, follows the bracket and its one whitespace character, the whole text is the message. */
  lemma EmptyRestKeepsWholeText(c: string, rest: string)
    requires ']' !in c && SingleLine(c)
    requires rest == [] || IsLineTerminator(rest[0])
    ensures ParseBackendError("[" + c + "]") == ParsedError(Some(c), "[" + c + "]")
    ensures ParseBackendError("[" + c + "] " + rest) == ParsedError(Some(c), "[" + c + "] " + rest)
  {
    BareBracketKeepsWholeText(c);
    SpacedBracketKeepsWholeText(c, rest);
  }

  lemma BareBracketKeepsWholeText(c: string)
    requires ']' !in c && SingleLine(c)
    ensures ParseBackendError("[" + c + "]") == ParsedError(Some(c), "[" + c + "]")
  {
    var s := "[" + c + "]";
    CloseOf(c, []);
    assert "[" + c + "]" + [] == s;
    ParseWhenNoMessage(s, |c| + 1, |c| + 2);
  }

  lemma SpacedBracketKeepsWholeText(c: string, rest: string)
    requires ']' !in c && SingleLine(c)
    requires rest == [] || IsLineTerminator(rest[0])
    ensures ParseBackendError("[" + c + "] " + rest) == ParsedError(Some(c), "[" + c + "] " + rest)
  {
    var s := "[" + c + "] " + rest;
    CloseOf(c, " " + rest);
    assert "[" + c + "]" + (" " + rest) == s;
    var k := |c| + 3;
    assert s[k - 1] == ' ';
    assert k == |s| || s[k] == rest[0];
    ParseWhenNoMessage(s, |c| + 1, k);
  }

  /** The match once the bracket at `j` is known and no message text follows it. */
  lemma ParseWhenNoMessage(s: string, j: nat, k: nat)
    requires s != [] && s[0] == '[' && CloseBracket(s, 1) == Some(j)
    requires k == if j + 1 < |s| && IsSpace(s[j + 1]) then j + 2 else j + 1
    requires k == |s| || IsLineTerminator(s[k])
    ensures ParseBackendError(s) == ParsedError(Some(s[1..j]), s)
  {
  }

  /** In "[" c "]" rest, the category ends at the bracket after `c`. */
  lemma CloseOf(c: string, rest: string)
    requires ']' !in c && SingleLine(c)
    ensures var s := "[" + c + "]" + rest; CloseBracket(s, 1) == Some(|c| + 1) && s[1..|c| + 1] == c
  {
    var s := "[" + c + "]" + rest;
    assert forall k :: 1 <= k <= |c| ==> s[k] == c[k - 1];
    assert s[|c| + 1] == ']';
    CloseAt(s, 1, |c| + 1);
    assert s[1..|c| + 1] == c;
  }

  lemma {:induction false} CloseAt(s: string, i: nat, j: nat)
    requires i <= j < |s| && s[j] == ']'
    requires forall k :: i <= k < j ==> s[k] != ']' && !IsLineTerminator(s[k])
    ensures CloseBracket(s, i) == Some(j)
    decreases j - i
  {
    if i < j {
      CloseAt(s, i + 1, j);
    }
  }

  lemma {:induction false} LineRunOfSingleLine(s: string, i: nat, m: string)
    requires i + |m| <= |s| && s[i..i + |m|] == m && SingleLine(m)
    requires i + |m| == |s| || IsLineTerminator(s[i + |m|])
    ensures LineRun(s, i) == |m|
    decreases |m|
  {
    if m != [] {
      assert s[i] == m[0];
      assert s[i + 1..i + 1 + |m[1..]|] == m[1..];
      LineRunOfSingleLine(s, i + 1, m[1..]);
    }
  }

  /**
   * "[" c "]", one whitespace character (a line terminator included), a
   * non-empty single-line message and then nothing or a new line parses to
   * (c, message).
   */
  lemma ParseOfFormattedWith(c: string, sep: char, m: string, rest: string)
    requires ']' !in c && SingleLine(c) && IsSpace(sep)
    requires m != [] && SingleLine(m)
    requires rest == [] || IsLineTerminator(rest[0])
    ensures ParseBackendError("[" + c + "]" + [sep] + m + rest) == ParsedError(Some(c), m)
  {
    var s := "[" + c + "]" + [sep] + m + rest;
    var j := |c| + 1;
    var k := j + 2;
    FormattedPieces(c, sep, m, rest);
    CloseIn(c, s);
    LineRunOfSingleLine(s, k, m);
    ParseWhenClosed(s, j, k);
  }

  /** Where the pieces of "[" c "]" sep m rest sit. */
  lemma FormattedPieces(c: string, sep: char, m: string, rest: string)
    ensures var s := "[" + c + "]" + [sep] + m + rest;
      var k := |c| + 3;
      && |s| == k + |m| + |rest| && s[0] == '[' && s[1..|c| + 1] == c && s[|c| + 1] == ']' && s[|c| + 2] == sep
      && s[k..k + |m|] == m && (rest == [] || s[k + |m|] == rest[0])
  {
    var s := "[" + c + "]" + [sep] + m + rest;
    var k := |c| + 3;
    assert s[1..|c| + 1] == c;
    assert s[k..k + |m|] == m;
  }

  /** The bracket right after `c` closes the category. */
  lemma CloseIn(c: string, s: string)
    requires ']' !in c && SingleLine(c)
    requires |c| + 2 <= |s| && s[0] == '[' && s[1..|c| + 1] == c && s[|c| + 1] == ']'
    ensures CloseBracket(s, 1) == Some(|c| + 1)
  {
    assert forall q :: 1 <= q <= |c| ==> s[q] == c[q - 1];
    CloseAt(s, 1, |c| + 1);
  }

  /** The match once the bracket at `j` and the start `k` of the message are known. */
  lemma ParseWhenClosed(s: string, j: nat, k: nat)
    requires s != [] && s[0] == '[' && CloseBracket(s, 1) == Some(j)
    requires k == if j + 1 < |s| && IsSpace(s[j + 1]) then j + 2 else j + 1
    requires LineRun(s, k) > 0
    ensures ParseBackendError(s) == ParsedError(Some(s[1..j]), s[k..k + LineRun(s, k)])
  {
  }

  /** Round trip: "[" c "] " m parses back to (c, m). */
  lemma ParseOfFormatted(c: string, m: string)
    requires ']' !in c && SingleLine(c)
    requires m != [] && SingleLine(m)
    ensures ParseBackendError("[" + c + "] " + m) == ParsedError(Some(c), m)
  {
    ParseOfFormattedWith(c, ' ', m, []);
    assert "[" + c + "]" + [' '] + m + [] == "[" + c + "] " + m;
  }

  /** Every back-end error with a non-empty single-line detail reaches the front end as its tag and detail. */
  lemma DisplayRoundTrip(e: AppError)
    requires e.detail != [] && SingleLine(e.detail)
    ensures ParseBackendError(Display(e)) == ParsedError(Some(Tag(e)), e.detail)
    ensures FromTag(ParseBackendError(Display(e)).category.value, ParseBackendError(Display(e)).message) == Some(e)
  {
    TagIsPlain(e);
    ParseOfFormatted(Tag(e), e.detail);
    TagDeterminesVariant(e);
  }

  /** The value a rejected call hands to the front end: an `Error` object or any other value. */
  datatype Thrown = ErrorObject(message: string) | OtherValue(value: JsValue)

  /** `error instanceof Error ? error.message : String(error)`. */
  function ThrownText(t: Thrown): (r: string)
    ensures t.ErrorObject? ==> r == t.message
    ensures t.OtherValue? ==> r == ToJsString(t.value)
  {
    match t
    case ErrorObject(message) => message
    case OtherValue(v) => ToJsString(v)
  }

  function ParseThrown(t: Thrown): (r: ParsedError)
  {
    ParseBackendError(ThrownText(t))
  }

  /** A serialised back-end error, rejected as a plain string, parses to its tag and detail. */
  lemma SerializedRoundTrip(e: AppError)
    requires e.detail != [] && SingleLine(e.detail)
    ensures ParseThrown(OtherValue(Serialize(e))) == ParsedError(Some(Tag(e)), e.detail)
  {
    DisplayRoundTrip(e);
  }

  /** With an empty detail, the message falls back to the whole display string. */
  lemma EmptyDetailGivesWholeText(e: AppError)
    requires e.detail == []
    ensures ParseBackendError(Display(e)) == ParsedError(Some(Tag(e)), Display(e))
  {
    TagIsPlain(e);
    SpacedBracketKeepsWholeText(Tag(e), []);
    assert Display(e) == "[" + Tag(e) + "] " + [];
  }

  /** A multi-line detail reaches the front end cut at its first line terminator. */
  lemma MultiLineDetailIsCut(e: AppError, first: string, rest: string)
    requires first != [] && SingleLine(first) && rest != [] && IsLineTerminator(rest[0])
    requires e.detail == first + rest
    ensures ParseBackendError(Display(e)) == ParsedError(Some(Tag(e)), first)
  {
    var c := Tag(e);
    TagIsPlain(e);
    ParseOfFormattedWith(c, ' ', first, rest);
    var head := "[" + c + "]" + [' '];
    assert head == "[" + c + "] ";
    calc {
      Display(e);
      head + e.detail;
      head + (first + rest);
      { SeqAssoc(head, first, rest); }
      head + first + rest;
    }
  }
}

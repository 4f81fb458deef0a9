/**
 * The file attachment card of a chat message: which kind of file a source
 * (a `data:` URL or a path) holds, the name shown for it, the size estimated
 * from a base64 payload, and when clicking it asks the operating system to
 * open it.
 */
module MessageFile {
  import opened Common

  /** The categories the card distinguishes, in the order they are tried. */
  datatype FileKind = Image | Video | Audio | Pdf | Text | Other

  /** The label shown on the card. */
  function Label(k: FileKind): (r: string)
    ensures r != ""
  {
    match k
    case Image => "Image"
    case Video => "Video"
    case Audio => "Audio"
    case Pdf => "PDF"
    case Text => "Text"
    case Other => "File"
  }

  /** First `;` at or after `i` with no line terminator before it, for the lazy `(.*?);`. */
  function SemicolonOnLine(s: string, i: nat): (r: Option<nat>)
    requires i <= |s|
    ensures r.Some? ==> i <= r.value < |s| && s[r.value] == ';'
    ensures r.Some? ==> forall k :: i <= k < r.value ==> s[k] != ';' && !IsLineTerminator(s[k])
    decreases |s| - i
  {
    if i == |s| then None
    else if s[i] == ';' then Some(i)
    else if IsLineTerminator(s[i]) then None
    else SemicolonOnLine(s, i + 1)
  }

  /** `src.match(/data:(.*?);/)` searched from position `p`: the captured text of the first match. */
  function DataMimeFrom(s: string, p: nat): (r: Option<string>)
    requires p <= |s|
    ensures r.Some? ==> ';' !in r.value && forall k :: 0 <= k < |r.value| ==> !IsLineTerminator(r.value[k])
    decreases |s| - p
  {
    if p + 5 > |s| then None
    else if OccursAt(s, "data:", p) && SemicolonOnLine(s, p + 5).Some? then
      var j := SemicolonOnLine(s, p + 5).value;
      Some(s[p + 5..j])
    else DataMimeFrom(s, p + 1)
  }

  /**
   * The mime type the card works with: the supplied one when it is
   * non-empty; otherwise, for a `data:` URL, the text up to the first `;`
   * (or `application/octet-stream` with no match).
   */
  function EffectiveMime(src: string, mimeType: Option<string>): (r: Option<string>)
    ensures (mimeType.Some? && mimeType.value != "") || !StartsWith(src, "data:") ==> r == mimeType
    ensures StartsWith(src, "data:") && (mimeType.None? || mimeType.value == "") ==> r.Some?
  {
    if (mimeType.None? || mimeType.value == "") && StartsWith(src, "data:") then
      match DataMimeFrom(src, 0)
      case Some(m) => Some(m)
      case None => Some("application/octet-stream")
    else mimeType
  }

  /** The last of the pieces `s.split(c)` gives. */
  function LastPiece(s: string, c: char): (r: string)
  {
    var parts := Split(s, c);
    parts[|parts| - 1]
  }

  /** `r` is the part of `s` after its last `c`, all of `s` when there is none. */
  predicate AfterLast(s: string, c: char, r: string)
  {
    c !in r && |r| <= |s| && s[|s| - |r|..] == r && (|r| == |s| || s[|s| - |r| - 1] == c)
  }

  /** The last piece is the part of `s` after its last `c`. */
  lemma {:induction false} LastPieceShape(s: string, c: char)
    ensures AfterLast(s, c, LastPiece(s, c))
    decreases |s|
  {
    var i := IndexOf(s, c, 0);
    if i < |s| {
      LastPieceShape(s[i + 1..], c);
      LastPieceSkip(s, c);
      AfterLastStep(s, c, i, LastPiece(s[i + 1..], c));
    } else {
      assert Split(s, c) == [s];
      assert forall k :: 0 <= k < |s| ==> s[k] != c;
    }
  }

  /** What follows the last `c` of `s[i + 1..]` follows the last `c` of `s` when `s[i]` is a `c`. */
  lemma AfterLastStep(s: string, c: char, i: nat, r: string)
    requires i < |s| && s[i] == c
    requires AfterLast(s[i + 1..], c, r)
    ensures AfterLast(s, c, r)
  {
    var rest := s[i + 1..];
    var start := |s| - |r|;
    assert |rest| - |r| == start - i - 1;
    if start == i + 1 {
      assert s[start - 1] == c;
    } else {
      assert s[start - 1] == rest[start - i - 2];
    }
    assert s[start..] == rest[start - i - 1..];
  }

  /** Past the first separator, the last piece is the last piece of what follows it. */
  lemma LastPieceSkip(s: string, c: char)
    requires IndexOf(s, c, 0) < |s|
    ensures LastPiece(s, c) == LastPiece(s[IndexOf(s, c, 0) + 1..], c)
  {
    var i := IndexOf(s, c, 0);
    SplitCons(s, c, i);
    LastPieceOfCons(s, c, s[i + 1..], s[..i]);
  }

  /** Pieces that differ only by a leading one end with the same piece. */
  lemma LastPieceOfCons(s: string, c: char, t: string, h: string)
    requires Split(s, c) == [h] + Split(t, c)
    ensures LastPiece(s, c) == LastPiece(t, c)
  {
    LastOfCons(h, Split(t, c));
  }

  /** `Split` at its first separator. */
  lemma SplitCons(s: string, c: char, i: nat)
    requires i == IndexOf(s, c, 0) < |s|
    ensures Split(s, c) == [s[..i]] + Split(s[i + 1..], c)
  {
  }

  /** `src.split('.').pop()?.toLowerCase() || ''`. */
  function Extension(src: string): (r: string)
  {
    Lower(LastPiece(src, '.'))
  }

  const ImageExtensions: seq<string> := ["jpg", "jpeg", "png", "gif", "webp"]
  const VideoExtensions: seq<string> := ["mp4", "webm", "mov", "avi"]
  const AudioExtensions: seq<string> := ["mp3", "wav", "ogg"]
  const TextExtensions: seq<string> := ["txt", "md", "csv"]

  predicate MimeStarts(mime: Option<string>, prefix: string)
  {
    mime.Some? && StartsWith(mime.value, prefix)
  }

  /** `getFileInfo`: the first of the tests, in order, that the mime type or the extension passes. */
  function FileInfo(src: string, mimeType: Option<string>): FileKind
  {
    var mime := EffectiveMime(src, mimeType);
    var ext := Extension(src);
    if MimeStarts(mime, "image/") || ext in ImageExtensions then Image
    else if MimeStarts(mime, "video/") || ext in VideoExtensions then Video
    else if MimeStarts(mime, "audio/") || ext in AudioExtensions then Audio
    else if mime == Some("application/pdf") || ext == "pdf" then Pdf
    else if MimeStarts(mime, "text/") || ext in TextExtensions then Text
    else Other
  }

  /** Whether the mime type or the extension names the kind, each test read on its own. */
  predicate Names(k: FileKind, mime: Option<string>, ext: string)
  {
    match k
    case Image => MimeStarts(mime, "image/") || ext in ImageExtensions
    case Video => MimeStarts(mime, "video/") || ext in VideoExtensions
    case Audio => MimeStarts(mime, "audio/") || ext in AudioExtensions
    case Pdf => mime == Some("application/pdf") || ext == "pdf"
    case Text => MimeStarts(mime, "text/") || ext in TextExtensions
    case Other => true
  }

  /** The first kind of the list that the mime type or extension names. */
  function FirstNamed(kinds: seq<FileKind>, mime: Option<string>, ext: string): (k: FileKind)
    ensures k == Other || k in kinds
  {
    if kinds == [] then Other
    else if Names(kinds[0], mime, ext) then kinds[0]
    else FirstNamed(kinds[1..], mime, ext)
  }

  const Precedence: seq<FileKind> := [Image, Video, Audio, Pdf, Text]

  /** The classification is the first named kind in the order Image, Video, Audio, PDF, Text; File when none is. */
  lemma FileInfoIsFirstNamed(src: string, mimeType: Option<string>)
    ensures FileInfo(src, mimeType) == FirstNamed(Precedence, EffectiveMime(src, mimeType), Extension(src))
  {
    var mime := EffectiveMime(src, mimeType);
    var ext := Extension(src);
    var l4 := [Text];
    var l3 := [Pdf] + l4;
    var l2 := [Audio] + l3;
    var l1 := [Video] + l2;
    assert Precedence == [Image] + l1;
    assert FirstNamed(l4, mime, ext) == if Names(Text, mime, ext) then Text else Other by {
      assert l4[1..] == [];
    }
    assert FirstNamed(l3, mime, ext) == if Names(Pdf, mime, ext) then Pdf else FirstNamed(l4, mime, ext) by {
      assert l3[0] == Pdf && l3[1..] == l4;
    }
    assert FirstNamed(l2, mime, ext) == if Names(Audio, mime, ext) then Audio else FirstNamed(l3, mime, ext) by {
      assert l2[0] == Audio && l2[1..] == l3;
    }
    assert FirstNamed(l1, mime, ext) == if Names(Video, mime, ext) then Video else FirstNamed(l2, mime, ext) by {
      assert l1[0] == Video && l1[1..] == l2;
    }
    assert FirstNamed(Precedence, mime, ext) == if Names(Image, mime, ext) then Image else FirstNamed(l1, mime, ext) by {
      assert Precedence[0] == Image && Precedence[1..] == l1;
    }
  }

  /** A kind is chosen exactly when it is named and no kind before it is. */
  lemma {:induction false} FirstNamedIff(kinds: seq<FileKind>, mime: Option<string>, ext: string, i: nat)
    requires i < |kinds| && forall a, b :: 0 <= a < b < |kinds| ==> kinds[a] != kinds[b]
    ensures FirstNamed(kinds, mime, ext) == kinds[i] <==>
      Names(kinds[i], mime, ext) && forall j :: 0 <= j < i ==> !Names(kinds[j], mime, ext)
  {
    if i > 0 {
      if Names(kinds[0], mime, ext) {
        assert kinds[0] != kinds[i];
      } else {
        FirstNamedIff(kinds[1..], mime, ext, i - 1);
        assert forall j :: 1 <= j < i ==> kinds[1..][j - 1] == kinds[j];
      }
    }
  }

  /** A supplied, non-empty mime type starting with "image/" makes an image, whatever the path. */
  lemma ImageMimeWins(src: string, mime: string)
    requires mime != "" && StartsWith(mime, "image/")
    ensures FileInfo(src, Some(mime)) == Image
  {
  }

  /** The mime type of `data:<m>;...` is `m`, when `m` holds no `;` and no line break. */
  lemma DataUrlMime(m: string, rest: string)
    requires ';' !in m && forall k :: 0 <= k < |m| ==> !IsLineTerminator(m[k])
    ensures EffectiveMime("data:" + m + ";" + rest, None) == Some(m)
  {
    var s := "data:" + m + ";" + rest;
    assert OccursAt(s, "data:", 0) by {
      assert s[..5] == "data:";
    }
    SemicolonAfter(s, m, 5);
    assert s[5..5 + |m|] == m;
  }

  lemma {:induction false} SemicolonAfter(s: string, m: string, i: nat)
    requires i + |m| < |s| && s[i..i + |m|] == m && s[i + |m|] == ';'
    requires ';' !in m && forall k :: 0 <= k < |m| ==> !IsLineTerminator(m[k])
    ensures SemicolonOnLine(s, i) == Some(i + |m|)
    decreases |m|
  {
    if m != [] {
      assert s[i] == m[0];
      SemicolonAfter(s, m[1..], i + 1);
    }
  }

  /** A `data:` URL without any `;` gets the generic binary type. */
  lemma DataUrlWithoutSemicolon(src: string)
    requires StartsWith(src, "data:") && ';' !in src
    ensures EffectiveMime(src, None) == Some("application/octet-stream")
  {
    NoSemicolonNoMatch(src, 0);
  }

  lemma {:induction false} NoSemicolonNoMatch(s: string, p: nat)
    requires p <= |s| && ';' !in s
    ensures DataMimeFrom(s, p) == None
    decreases |s| - p
  {
    if p + 5 <= |s| {
      NoSemicolonNoMatch(s, p + 1);
    }
  }

  /** The extension is the text after the last '.', lower-cased; a path without '.' is its own extension. */
  lemma ExtensionShape(src: string)
    ensures var raw := LastPiece(src, '.');
      |raw| <= |src| && Extension(src) == Lower(raw) && '.' !in raw && src[|src| - |raw|..] == raw &&
      (|raw| == |src| || src[|src| - |raw| - 1] == '.')
  {
    LastPieceShape(src, '.');
  }

  /** Upper-case extensions classify like lower-case ones: "photo.PNG" is an image. */
  lemma ExtensionIgnoresCase()
    ensures FileInfo("photo.PNG", None) == Image
  {
    var s := "photo.PNG";
    assert IndexOf(s, '.', 0) == 5 by {
      assert s[5] == '.';
      assert forall k :: 0 <= k < 5 ==> s[k] != '.';
    }
    assert s[6..] == "PNG";
    assert IndexOf("PNG", '.', 0) == 3;
    assert Lower("PNG") == "png";
  }

  /** `getFileName`: "attachment" for a data URL, else the last '/' piece, or "file" when that is empty. */
  function FileName(src: string): (r: string)
    ensures r != ""
    ensures StartsWith(src, "data:") ==> r == "attachment"
  {
    if StartsWith(src, "data:") then "attachment"
    else
      var last := LastPiece(src, '/');
      if last == "" then "file" else last
  }

  /** The name shown for a path is what follows its last '/'. */
  lemma FileNameOfPath(src: string)
    requires !StartsWith(src, "data:")
    ensures var r := FileName(src);
      (r == "file" && (src == "" || src[|src| - 1] == '/')) ||
      ('/' !in r && |r| <= |src| && src[|src| - |r|..] == r && (|r| == |src| || src[|src| - |r| - 1] == '/'))
  {
    LastPieceShape(src, '/');
  }

  /** Pieces joined with '/' name the file by the last piece. */
  lemma FileNameOfJoinedPath(parts: seq<string>)
    requires |parts| >= 1 && forall k :: 0 <= k < |parts| ==> '/' !in parts[k]
    requires parts[|parts| - 1] != "" && !StartsWith(Join(parts, '/'), "data:")
    ensures FileName(Join(parts, '/')) == parts[|parts| - 1]
  {
    var path := Join(parts, '/');
    SplitJoin(parts, '/');
    LastPieceOfSplit(path, '/', parts);
  }

  lemma LastPieceOfSplit(s: string, c: char, parts: seq<string>)
    requires Split(s, c) == parts
    ensures LastPiece(s, c) == parts[|parts| - 1]
  {
  }

  /**
   * `getFileSize`: for a data URL, `floor(len * 3 / 4)` of the text between
   * the first and second ',', its length in UTF-16 code units; no such text,
   * or an empty one, gives `null`.
   * For a path, the size `stat` reported (`None` when it failed).
   */
  function FileSize(src: string, stat: Option<nat>): (r: Option<nat>)
    ensures !StartsWith(src, "data:") ==> r == stat
    ensures StartsWith(src, "data:") ==> (r.Some? <==> |Split(src, ',')| >= 2 && Split(src, ',')[1] != "")
    ensures StartsWith(src, "data:") && r.Some? ==>
      4 * r.value <= 3 * |CodeUnits(Split(src, ',')[1])| < 4 * r.value + 4
  {
    if StartsWith(src, "data:") then
      var parts := Split(src, ',');
      if |parts| >= 2 && parts[1] != "" then Some(|CodeUnits(parts[1])| * 3 / 4) else None
    else stat
  }

  /**
   * A data URL with one ',' before a non-empty payload estimates three
   * quarters of the payload's code units; for a payload in the Basic
   * Multilingual Plane (base64 text in particular) that is three quarters of
   * its characters.
   */
  lemma Base64Size(header: string, payload: string)
    requires StartsWith(header, "data:") && ',' !in header && ',' !in payload && payload != ""
    ensures FileSize(header + "," + payload, None) == Some(|CodeUnits(payload)| * 3 / 4)
    ensures (forall k :: 0 <= k < |payload| ==> (payload[k] as int) < 0x1_0000) ==>
      FileSize(header + "," + payload, None) == Some(|payload| * 3 / 4)
  {
    var parts := [header, payload];
    assert Join(parts, ',') == header + "," + payload by {
      assert parts[1..] == [payload];
    }
    SplitJoin(parts, ',');
    assert StartsWith(header + "," + payload, "data:") by {
      assert (header + "," + payload)[..5] == header[..5];
    }
  }

  /**
   * A payload of characters outside the Basic Multilingual Plane counts two
   * code units each: two emoji after `data:text/plain,` estimate 3 bytes, not 1.
   */
  lemma AstralPayloadSize(header: string, payload: string)
    requires StartsWith(header, "data:") && ',' !in header && ',' !in payload && payload != ""
    requires forall k :: 0 <= k < |payload| ==> (payload[k] as int) >= 0x1_0000
    ensures FileSize(header + "," + payload, None) == Some(|payload| * 6 / 4)
  {
    AstralCodeUnits(payload);
    Base64Size(header, payload);
  }

  /** A data URL with no ',' has no size. */
  lemma DataUrlWithoutPayload(src: string)
    requires StartsWith(src, "data:") && ',' !in src
    ensures FileSize(src, None) == None
  {
    SplitJoin([src], ',');
  }

  /** Clicking asks the system to open only sources that are neither data URLs nor start with "http". */
  predicate ShouldOpen(src: string)
  {
    !StartsWith(src, "data:") && !StartsWith(src, "http")
  }

  /** The click handler's guard: a click while an open is in flight does nothing. */
  class OpenButton {
    var isOpening: bool

    constructor ()
      ensures !isOpening
    {
      isOpening := false;
    }

    /** `handleClick` up to the `await`: returns whether `openPath` is called. */
    method Click(src: string) returns (opens: bool)
      modifies this
      ensures old(isOpening) ==> !opens && isOpening
      ensures !old(isOpening) ==> isOpening && opens == ShouldOpen(src)
    {
      if isOpening {
        opens := false;
      } else {
        isOpening := true;
        opens := ShouldOpen(src);
      }
    }

    /** The `finally` after the open settled, successfully or not. */
    method Settle()
      modifies this
      ensures !isOpening
    {
      isOpening := false;
    }
  }
}

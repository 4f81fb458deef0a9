/**
 * The preview chip of a file attached to the chat input: it shows an image
 * thumbnail when the file's mime type is an image type, and a kind label
 * decided by the mime type alone.
 */
module AttachedFileItem {
  import opened Common
  import opened MessageFile

  /** `isImage`: the thumbnail (and its object URL) exists only for image types. */
  predicate IsImage(mimeType: string)
  {
    StartsWith(mimeType, "image/")
  }

  /** The `fileInfo` memo: the kind, by mime prefix, with PDF only for exactly `application/pdf`. */
  function Classify(mimeType: string): (k: FileKind)
    ensures k == Image <==> IsImage(mimeType)
    ensures k == Pdf <==> mimeType == "application/pdf"
    ensures k == Video <==> !IsImage(mimeType) && StartsWith(mimeType, "video/")
    ensures k == Audio <==> !IsImage(mimeType) && !StartsWith(mimeType, "video/") && StartsWith(mimeType, "audio/")
    ensures k == Text <==>
      !IsImage(mimeType) && !StartsWith(mimeType, "video/") && !StartsWith(mimeType, "audio/")
      && StartsWith(mimeType, "text/") && mimeType != "application/pdf"
  {
    var pdf := "application/pdf";
    assert pdf[..6][0] == 'a' && pdf[..6][1] == 'p';
    if StartsWith(mimeType, "image/") then Image
    else if StartsWith(mimeType, "video/") then Video
    else if StartsWith(mimeType, "audio/") then Audio
    else if mimeType == "application/pdf" || StartsWith(mimeType, "text/") then
      (if mimeType == "application/pdf" then Pdf else Text)
    else Other
  }

  /** The chip is the message card's classification with no extension to go by. */
  lemma ClassifyAgreesWithCard(mimeType: string, src: string)
    requires mimeType != ""
    requires Extension(src) !in ImageExtensions + VideoExtensions + AudioExtensions + TextExtensions + ["pdf"]
    ensures Classify(mimeType) == FileInfo(src, Some(mimeType))
  {
    var ext := Extension(src);
    assert ext !in ImageExtensions && ext !in VideoExtensions && ext !in AudioExtensions;
    assert ext !in TextExtensions && ext != "pdf";
  }

  /** Every text type other than `application/pdf` is labelled "Text", PDF documents "PDF". */
  lemma TextAndPdfLabels(mimeType: string)
    requires !IsImage(mimeType) && !StartsWith(mimeType, "video/") && !StartsWith(mimeType, "audio/")
    ensures StartsWith(mimeType, "text/") ==> Label(Classify(mimeType)) == "Text"
    ensures mimeType == "application/pdf" ==> Label(Classify(mimeType)) == "PDF"
    ensures mimeType != "application/pdf" && !StartsWith(mimeType, "text/") ==> Label(Classify(mimeType)) == "File"
  {
  }

  /**
   * The two classifiers differ when only the name says what the file is:
   * a `.png` path without a mime type is an image on the card but a plain
   * file on the chip.
   */
  lemma NoExtensionFallback()
    ensures Classify("") == Other && FileInfo("a.png", Some("")) == Image
  {
    var s := "a.png";
    assert IndexOf(s, '.', 0) == 1 by {
      assert s[1] == '.' && s[0] != '.';
    }
    assert s[2..] == "png";
    assert IndexOf("png", '.', 0) == 3;
    assert Lower("png") == "png";
  }
}

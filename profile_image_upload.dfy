/**
 * The profile image picker: a preview of the chosen image, with a type and a
 * size check on every file chosen.
 */
module ProfileImageUpload {
  import opened Collections
  import Text

  /** The largest accepted file: 5 MiB. */
  const MaxFileBytes: nat := 5 * 1024 * 1024

  /** What the handler reads of a chosen file: its MIME type and its size in bytes. */
  datatype FileInfo = FileInfo(mimeType: string, size: nat)

  /** The outcome of checking a file: accepted, or one of the two alerts. */
  datatype Verdict = Accepted | NotAnImage | TooLarge

  /** The type check comes first, then the strict size bound. */
  function Check(file: FileInfo): (v: Verdict)
    ensures v == NotAnImage <==> !Text.StartsWith(file.mimeType, "image/")
    ensures v == TooLarge <==> Text.StartsWith(file.mimeType, "image/") && file.size > MaxFileBytes
    ensures v == Accepted <==> Text.StartsWith(file.mimeType, "image/") && file.size <= MaxFileBytes
  {
    if !Text.StartsWith(file.mimeType, "image/") then NotAnImage
    else if file.size > MaxFileBytes then TooLarge
    else Accepted
  }

  /** An image of exactly 5 MiB passes, one byte more does not. */
  lemma SizeBoundary(mimeType: string)
    requires Text.StartsWith(mimeType, "image/")
    ensures Check(FileInfo(mimeType, 5242880)) == Accepted
    ensures Check(FileInfo(mimeType, 5242881)) == TooLarge
  {
  }

  /** A file that is not an image reports the type error whatever its size. */
  lemma TypeCheckedFirst(mimeType: string, small: nat, large: nat)
    requires !Text.StartsWith(mimeType, "image/")
    ensures Check(FileInfo(mimeType, small)) == Check(FileInfo(mimeType, large)) == NotAnImage
  {
  }

  /** Concrete instances: a 10 MiB PDF is refused for its type; "image" without a slash is no image type. */
  lemma CheckExamples()
    ensures Check(FileInfo("application/pdf", 10 * 1024 * 1024)) == NotAnImage
    ensures Check(FileInfo("image", 1)) == NotAnImage
    ensures Check(FileInfo("image/png", 1)) == Accepted
  {
    assert "application/pdf"[..6][0] != "image/"[0];
  }

  /** `currentImage || null`: a missing or empty current image gives no preview. */
  function InitialPreview(currentImage: Option<string>): (r: Option<string>)
    ensures r.Some? <==> currentImage.Some? && currentImage.value != ""
    ensures r.Some? ==> r == currentImage
  {
    if currentImage == Some("") then None else currentImage
  }

  /**
   * The picker's state: the preview shown, and every value passed so far to
   * `onImageChange` (`None` standing for `null`), oldest first.
   */
  class Uploader {
    var previewUrl: Option<string>
    var notified: seq<Option<string>>

    /** The preview starts as the current image, when there is a non-empty one. */
    constructor (currentImage: Option<string>)
      ensures previewUrl == InitialPreview(currentImage) && notified == []
    {
      previewUrl := InitialPreview(currentImage);
      notified := [];
    }

    /**
     * `handleFileSelect`: with no file nothing happens; a file that fails the
     * check is refused with its alert and nothing changes; an accepted file's
     * data URL (`encoded`) becomes the preview and is passed to `onImageChange`.
     */
    method SelectFile(file: Option<FileInfo>, encoded: string) returns (verdict: Option<Verdict>)
      modifies this
      ensures verdict == (if file.Some? then Some(Check(file.value)) else None)
      ensures verdict == Some(Accepted) ==> previewUrl == Some(encoded) && notified == old(notified) + [Some(encoded)]
      ensures verdict != Some(Accepted) ==> previewUrl == old(previewUrl) && notified == old(notified)
    {
      if file.None? {
        return None;
      }
      verdict := Some(Check(file.value));
      if verdict != Some(Accepted) {
        return;
      }
      previewUrl := Some(encoded);
      notified := notified + [Some(encoded)];
    }

    /** `handleRemoveImage`: the preview goes and `onImageChange(null)` is called. */
    method RemoveImage()
      modifies this
      ensures previewUrl.None? && notified == old(notified) + [None]
    {
      previewUrl := None;
      notified := notified + [None];
    }
  }
}

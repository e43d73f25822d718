/**
 Local validation of a chosen or dropped product image
 (components/ImageUploader.tsx): an allow-list of media types, then a size
 bound, both checked before the App hears about the file.
 */
module ImageUploader {
  import opened Types

  /** What the browser reports about a file: its declared media type and its size in bytes. */
  datatype FileInfo = FileInfo(mimeType: string, size: nat)

  const AllowedTypes: seq<string> := ["image/png", "image/jpeg", "image/webp"]

  /** 10 MB. */
  const MaxSizeBytes: nat := 10 * 1024 * 1024

  const InvalidTypeMessage: string := "Invalid file type. Please upload a PNG, JPG, or WEBP."
  const TooLargeMessage: string := "File is too large. Maximum size is 10MB."

  /** One call the uploader makes into the App. */
  datatype Callback = OnError(message: string) | OnImageUpload(file: FileInfo)

  predicate AcceptableType(f: FileInfo)
  {
    f.mimeType in AllowedTypes
  }

  predicate AcceptableSize(f: FileInfo)
  {
    f.size <= MaxSizeBytes
  }

  /**
   processFile, as the list of callbacks it makes: none for no file, one
   error for a bad type (checked first) or an oversized file, else one upload.
   */
  function ProcessFile(file: Option<FileInfo>): (r: seq<Callback>)
    ensures |r| <= 1
    ensures file.None? ==> r == []
    ensures file.Some? ==> |r| == 1
    ensures file.Some? ==> (r[0].OnImageUpload? <==> AcceptableType(file.value) && AcceptableSize(file.value))
    ensures file.Some? && r[0].OnImageUpload? ==> r[0].file == file.value
    ensures file.Some? && !AcceptableType(file.value) ==> r == [OnError(InvalidTypeMessage)]
    ensures file.Some? && AcceptableType(file.value) && !AcceptableSize(file.value) ==> r == [OnError(TooLargeMessage)]
  {
    match file
    case None => []
    case Some(f) =>
      if f.mimeType !in AllowedTypes then [OnError(InvalidTypeMessage)]
      else if f.size > MaxSizeBytes then [OnError(TooLargeMessage)]
      else [OnImageUpload(f)]
  }

  /** A file that is both the wrong type and oversized reports only the type error. */
  lemma TypeCheckPrecedesSizeCheck(f: FileInfo)
    requires !AcceptableType(f) && !AcceptableSize(f)
    ensures ProcessFile(Some(f)) == [OnError(InvalidTypeMessage)]
  {
  }

  /** The bound is inclusive: a PNG of exactly 10 MB is accepted, one byte more is not. */
  lemma SizeBoundIsInclusive(f: FileInfo)
    requires f.mimeType == "image/png"
    ensures f.size == 10485760 ==> ProcessFile(Some(f)) == [OnImageUpload(f)]
    ensures f.size == 10485761 ==> ProcessFile(Some(f)) == [OnError(TooLargeMessage)]
  {
  }

  /** Exactly the three listed types pass the type check. */
  lemma AllowedTypesExactly(t: string)
    ensures t in AllowedTypes <==> t == "image/png" || t == "image/jpeg" || t == "image/webp"
  {
  }
}

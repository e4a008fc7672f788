/**
 * What the five upload components share: the results the pickers, `fetch`
 * and object storage hand back (taken as parameters), the storage path built
 * from the user id, the clock and the file extension, the error-message rule
 * of the `catch` blocks, and the step sequence of the three image handlers.
 */
module Upload {
  import opened Wrappers
  import opened Text
  import opened FileJson

  /** The size limit of the image handlers: `2 * 1024 * 1024` bytes. */
  const TwoMiB: nat := 2 * 1024 * 1024
  /** The size limit of the document handlers: `5 * 1024 * 1024` bytes. */
  const FiveMiB: nat := 5 * 1024 * 1024

  const PermissionDenied := "Permission to access media library was denied"
  const ImageTooLarge := "Image size must be less than 2MB"
  const FileTooLarge := "File size must be less than 5MB"

  /** What the image picker returns: cancelled, the first selected asset's URI, or an error. */
  datatype ImagePick = Cancelled | Picked(uri: string) | PickFailed(message: string)

  /** What the document picker returns. */
  datatype DocumentPick = DocCancelled | DocPicked(file: PickedFile) | DocPickFailed(message: string)

  /** `(await fetch(uri)).blob()`: the blob's size, or the error `fetch` threw. */
  datatype BlobResult = Blob(size: nat) | FetchFailed(message: string)

  /** The `error` field of storage's `upload` reply. */
  datatype StorageReply = Stored | StorageFailed(message: string)

  /** One call to storage's `upload`: bucket, path, and the form-data file entry. */
  datatype UploadRequest = UploadRequest(bucket: string, path: string, uri: string,
                                         contentType: string, name: string)

  /** A file shown by an image field: the name on the button and the local URI. */
  datatype ImageFile = ImageFile(name: string, uri: string)

  /** One call of a parent callback, in the order the component makes them. */
  datatype Notice =
    | PathSelected(path: string)   // onFileSelect / onImageSelect with a storage path
    | FileSelected(file: PickedFile) // onFileSelect with a picker file object
    | ErrorReported(message: Option<string>) // onError(message) or onError(null)

  /** `${userId}/${Date.now()}.${fileExt}` */
  function FilePath(userId: string, now: nat, ext: string): (r: string)
    ensures r == userId + "/" + Decimal(now) + "." + ext
    ensures IsPrefix(userId + "/", r)
    ensures '.' !in ext ==> Extension(r) == ext
  {
    var r := userId + "/" + Decimal(now) + "." + ext;
    assert r[..|userId| + 1] == userId + "/";
    assert '.' !in ext ==> Extension(r) == ext by {
      if '.' !in ext {
        ExtensionOfDotted(userId + "/" + Decimal(now), ext);
      }
    }
    r
  }

  /** `error.message || fallback`: an empty or missing message gives the fallback. */
  function ErrorMessage(thrown: string, fallback: string): (r: string)
    ensures thrown != "" ==> r == thrown
    ensures thrown == "" ==> r == fallback
    ensures fallback != "" ==> r != ""
  {
    if thrown != "" then thrown else fallback
  }

  /** How an image handler's `try` block ends. */
  datatype Attempt =
    | Returned                      // `if (result.canceled) return`
    | Threw(message: string)        // control reached the `catch` with this `error.message`
    | Uploaded(uri: string, ext: string) // the upload succeeded for this asset and extension

  /** The handler gets past the permission, picker, fetch and size checks and calls `upload`. */
  predicate ReachesUpload(granted: bool, pick: ImagePick, blob: BlobResult)
  {
    granted && pick.Picked? && blob.Blob? && blob.size <= TwoMiB
  }

  /**
   * The step sequence of `handleFrontIdUpload`, `handleBackIdUpload` and
   * `handleImageSelect`: permission, picker, blob fetch, 2 MiB check, upload.
   */
  function ImageAttempt(granted: bool, pick: ImagePick, blob: BlobResult, reply: StorageReply): (r: Attempt)
    ensures r.Uploaded? <==> ReachesUpload(granted, pick, blob) && reply.Stored?
    ensures r.Uploaded? ==> r.uri == pick.uri && r.ext == Extension(pick.uri)
    ensures r.Returned? <==> granted && pick.Cancelled?
    ensures !granted ==> r == Threw(PermissionDenied)
    ensures granted && pick.Picked? && blob.Blob? && blob.size > TwoMiB ==> r == Threw(ImageTooLarge)
    ensures granted && pick.PickFailed? ==> r == Threw(pick.message)
    ensures granted && pick.Picked? && blob.FetchFailed? ==> r == Threw(blob.message)
    ensures ReachesUpload(granted, pick, blob) && reply.StorageFailed? ==> r == Threw(reply.message)
  {
    if !granted then Threw(PermissionDenied)
    else match pick
      case Cancelled => Returned
      case PickFailed(m) => Threw(m)
      case Picked(uri) =>
        match blob
        case FetchFailed(m) => Threw(m)
        case Blob(size) =>
          if size > TwoMiB then Threw(ImageTooLarge)
          else match reply
            case StorageFailed(m) => Threw(m)
            case Stored => Uploaded(uri, Extension(uri))
  }

  /**
   * The timestamp is what keeps paths apart: a user's two uploads with the
   * same extension share a path only when they happen at the same instant.
   */
  lemma FilePathDeterminesTime(userId: string, n1: nat, n2: nat, ext: string)
    requires FilePath(userId, n1, ext) == FilePath(userId, n2, ext)
    ensures n1 == n2
  {
    var prefix, suffix := userId + "/", "." + ext;
    var d1, d2 := Decimal(n1), Decimal(n2);
    var r1, r2 := FilePath(userId, n1, ext), FilePath(userId, n2, ext);
    assert r1 == prefix + d1 + suffix;
    assert r2 == prefix + d2 + suffix;
    assert |d1| == |d2|;
    assert r1[|prefix|..|r1| - |suffix|] == d1;
    assert r2[|prefix|..|r2| - |suffix|] == d2;
    DecimalRoundTrip(n1);
    DecimalRoundTrip(n2);
  }

  /** An uploaded file's storage path ends in the extension of the picked asset's URI. */
  lemma StoredPathKeepsExtension(granted: bool, pick: ImagePick, blob: BlobResult, reply: StorageReply,
                                 userId: string, now: nat)
    requires ImageAttempt(granted, pick, blob, reply).Uploaded?
    ensures Extension(FilePath(userId, now, ImageAttempt(granted, pick, blob, reply).ext))
            == Extension(pick.uri)
  {
  }

  /** Exactly 2 MiB passes the check, one byte more is refused before any upload. */
  lemma SizeLimitBoundary(uri: string, reply: StorageReply)
    ensures ReachesUpload(true, Picked(uri), Blob(TwoMiB))
    ensures !ReachesUpload(true, Picked(uri), Blob(TwoMiB + 1))
    ensures ImageAttempt(true, Picked(uri), Blob(TwoMiB + 1), reply) == Threw(ImageTooLarge)
  {
  }

  /** What a mount finds under a secure-storage key. */
  datatype Saved =
    | NothingSaved          // the key holds null or ""
    | SavedFile(file: PickedFile)
    | Unreadable            // `getItemAsync` or `JSON.parse` threw

  /**
   * The `load…Data` step: read the key, and parse a truthy value back into a
   * picker file. `readFailed` stands for `getItemAsync` throwing.
   */
  function ReadSaved(items: map<string, string>, key: string, readFailed: bool): (r: Saved)
    ensures r.NothingSaved? <==> !readFailed && (key !in items || items[key] == "")
    ensures r.SavedFile? ==> key in items && Parse(items[key]) == Some(r.file)
  {
    if readFailed then Unreadable
    else if key !in items || items[key] == "" then NothingSaved
    else match Parse(items[key])
      case Some(f) => SavedFile(f)
      case None => Unreadable
  }

  /** A file persisted under a key is exactly what the next mount restores from it. */
  lemma {:induction false} ReadAfterPersist(items: map<string, string>, key: string, f: PickedFile)
    ensures ReadSaved(items[key := Stringify(f)], key, false) == SavedFile(f)
  {
    ParseStringify(f);
  }
}

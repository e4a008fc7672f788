/** The front-ID field: pick an image, check it is at most 2 MiB, upload it, show its name. */
module FrontIdUpload {
  import opened Wrappers
  import opened Text
  import opened Upload

  const Bucket := "front_valid_id"
  const Fallback := "Error uploading front ID"
  const EmptyLabel := "Upload Front ID"

  /** The name the uploaded file is sent and shown under. */
  function StoredName(ext: string): string
  {
    "front_id." + ext
  }

  /** The button text: the chosen file's name, or the prompt when no file is set. */
  function ButtonLabel(file: Option<ImageFile>): (r: string)
    ensures file.Some? ==> r == file.value.name
    ensures file.None? ==> r == EmptyLabel
  {
    match file
    case Some(f) => f.name
    case None => EmptyLabel
  }

  /** The upload a handler run issues, if it gets that far. */
  function Request(userId: string, now: nat, uri: string): (r: UploadRequest)
    ensures r.bucket == Bucket
    ensures r.path == FilePath(userId, now, Extension(uri))
    ensures IsPrefix(userId + "/", r.path) && Extension(r.path) == Extension(uri)
    ensures r.name == StoredName(Extension(uri)) && r.contentType == "image/" + Extension(uri)
  {
    var ext := Extension(uri);
    UploadRequest(Bucket, FilePath(userId, now, ext), uri, "image/" + ext, StoredName(ext))
  }

  class FrontIdField {
    const userId: string
    var frontIdFile: Option<ImageFile>
    var uploadError: Option<string>
    /** The calls made to `onFileSelect` and `onError`, oldest first. */
    var notices: seq<Notice>

    constructor (userId: string, initialValue: Option<ImageFile>)
      ensures this.userId == userId
      ensures frontIdFile == initialValue && uploadError == None && notices == []
    {
      this.userId := userId;
      frontIdFile, uploadError, notices := None, None, [];
      new;
      SyncInitialValue(initialValue);
    }

    /** The `initialValue` effect: a given file replaces the field, an absent one changes nothing. */
    method SyncInitialValue(initialValue: Option<ImageFile>)
      modifies this
      ensures frontIdFile == if initialValue.Some? then initialValue else old(frontIdFile)
      ensures uploadError == old(uploadError) && notices == old(notices)
    {
      if initialValue.Some? {
        frontIdFile := initialValue;
      }
    }

    /** The `catch` block: show and report the error's message, or the fallback. */
    method Catch(thrown: string)
      modifies this
      ensures uploadError == Some(ErrorMessage(thrown, Fallback))
      ensures notices == old(notices) + [ErrorReported(uploadError)]
      ensures frontIdFile == old(frontIdFile)
    {
      var message := ErrorMessage(thrown, Fallback);
      uploadError := Some(message);
      notices := notices + [ErrorReported(Some(message))];
    }

    /**
     * `handleFrontIdUpload`, with the permission answer, the picker result,
     * the fetched blob, `Date.now()` and storage's reply as parameters.
     * Returns the upload call made, if any.
     */
    method HandleFrontIdUpload(granted: bool, pick: ImagePick, blob: BlobResult, now: nat, reply: StorageReply)
      returns (request: Option<UploadRequest>)
      modifies this
      ensures request.Some? <==> ReachesUpload(granted, pick, blob)
      ensures request.Some? ==> request.value == Request(userId, now, pick.uri)
      ensures match ImageAttempt(granted, pick, blob, reply)
        case Returned =>
          frontIdFile == old(frontIdFile) && uploadError == old(uploadError) && notices == old(notices)
        case Threw(m) =>
          && frontIdFile == old(frontIdFile)
          && uploadError == Some(ErrorMessage(m, Fallback))
          && notices == old(notices) + [ErrorReported(uploadError)]
        case Uploaded(uri, ext) =>
          && frontIdFile == Some(ImageFile(StoredName(ext), uri))
          && uploadError == None
          && notices == old(notices) + [PathSelected(FilePath(userId, now, ext)), ErrorReported(None)]
          && ButtonLabel(frontIdFile) == StoredName(ext)
    {
      request := None;
      if !granted {
        assert ImageAttempt(granted, pick, blob, reply) == Threw(PermissionDenied);
        Catch(PermissionDenied);
        return;
      }
      if pick.Cancelled? {
        return;
      }
      if pick.PickFailed? {
        assert ImageAttempt(granted, pick, blob, reply) == Threw(pick.message);
        Catch(pick.message);
        return;
      }
      var uri := pick.uri;
      if blob.FetchFailed? {
        assert ImageAttempt(granted, pick, blob, reply) == Threw(blob.message);
        Catch(blob.message);
        return;
      }
      if blob.size > TwoMiB {
        Catch(ImageTooLarge);
        return;
      }
      var ext := Extension(uri);
      request := Some(Request(userId, now, uri));
      if reply.StorageFailed? {
        assert ImageAttempt(granted, pick, blob, reply) == Threw(reply.message);
        Catch(reply.message);
        return;
      }
      assert ImageAttempt(granted, pick, blob, reply) == Uploaded(uri, ext);
      ShowUploaded(uri, ext, request.value.path);
    }

    /** The end of a successful upload: show the file, clear the error, report the path. */
    method ShowUploaded(uri: string, ext: string, filePath: string)
      modifies this
      ensures frontIdFile == Some(ImageFile(StoredName(ext), uri)) && uploadError == None
      ensures notices == old(notices) + [PathSelected(filePath), ErrorReported(None)]
      ensures ButtonLabel(frontIdFile) == StoredName(ext)
    {
      frontIdFile := Some(ImageFile(StoredName(ext), uri));
      uploadError := None;
      notices := notices + [PathSelected(filePath), ErrorReported(None)];
    }
  }
}

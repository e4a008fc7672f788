/**
 * The profile-picture field: pick a square image, check it is at most 2 MiB,
 * upload it to the `profile_picture` bucket and show it by its public URL.
 * `getPublicUrl` of that bucket is a pure function of the path, given to the
 * component as `publicUrl`.
 */
module ProfilePicture {
  import opened Wrappers
  import opened Text
  import opened Upload

  const Bucket := "profile_picture"
  const Fallback := "Error uploading image"

  /** What the circle shows: the image at a URL, or the "tap to upload" text. */
  datatype Preview = Image(url: string) | Placeholder

  /** `imageUrl ? <Image …/> : <Text>Tap to upload profile picture</Text>` */
  function PreviewOf(imageUrl: Option<string>): (r: Preview)
    ensures r.Placeholder? <==> !Truthy(imageUrl)
    ensures r.Image? ==> imageUrl == Some(r.url)
  {
    if Truthy(imageUrl) then Image(imageUrl.value) else Placeholder
  }

  /** The upload a handler run issues, if it gets that far. */
  function Request(userId: string, now: nat, uri: string): (r: UploadRequest)
    ensures r.bucket == Bucket
    ensures r.path == FilePath(userId, now, Extension(uri))
    ensures IsPrefix(userId + "/", r.path) && Extension(r.path) == Extension(uri)
    ensures r.name == "profile." + Extension(uri) && r.contentType == "image/" + Extension(uri)
  {
    var ext := Extension(uri);
    UploadRequest(Bucket, FilePath(userId, now, ext), uri, "image/" + ext, "profile." + ext)
  }

  class AvatarField {
    const userId: string
    const publicUrl: string -> string
    var imageUrl: Option<string>
    var uploadError: Option<string>
    /** The calls made to `onImageSelect` and `onError`, oldest first. */
    var notices: seq<Notice>

    constructor (userId: string, publicUrl: string -> string, initialImageUrl: Option<string>)
      ensures this.userId == userId && this.publicUrl == publicUrl
      ensures imageUrl == if Truthy(initialImageUrl) then Some(publicUrl(initialImageUrl.value)) else None
      ensures uploadError == None && notices == []
    {
      this.userId, this.publicUrl := userId, publicUrl;
      imageUrl, uploadError, notices := None, None, [];
      new;
      SyncInitialImageUrl(initialImageUrl);
    }

    /** The `initialImageUrl` effect: a stored path is shown by its public URL. */
    method SyncInitialImageUrl(initialImageUrl: Option<string>)
      modifies this
      ensures imageUrl == if Truthy(initialImageUrl) then Some(publicUrl(initialImageUrl.value)) else old(imageUrl)
      ensures uploadError == old(uploadError) && notices == old(notices)
    {
      if Truthy(initialImageUrl) {
        imageUrl := Some(publicUrl(initialImageUrl.value));
      }
    }

    /** The `catch` block: show and report the error's message, or the fallback. */
    method Catch(thrown: string)
      modifies this
      ensures uploadError == Some(ErrorMessage(thrown, Fallback))
      ensures notices == old(notices) + [ErrorReported(uploadError)]
      ensures imageUrl == old(imageUrl)
    {
      var message := ErrorMessage(thrown, Fallback);
      uploadError := Some(message);
      notices := notices + [ErrorReported(Some(message))];
    }

    /**
     * `handleImageSelect`, with the permission answer, the picker result, the
     * fetched blob, `Date.now()` and storage's reply as parameters. Returns the
     * upload call made, if any.
     */
    method HandleImageSelect(granted: bool, pick: ImagePick, blob: BlobResult, now: nat, reply: StorageReply)
      returns (request: Option<UploadRequest>)
      modifies this
      ensures request.Some? <==> ReachesUpload(granted, pick, blob)
      ensures request.Some? ==> request.value == Request(userId, now, pick.uri)
      ensures match ImageAttempt(granted, pick, blob, reply)
        case Returned =>
          imageUrl == old(imageUrl) && uploadError == old(uploadError) && notices == old(notices)
        case Threw(m) =>
          && imageUrl == old(imageUrl)
          && uploadError == Some(ErrorMessage(m, Fallback))
          && notices == old(notices) + [ErrorReported(uploadError)]
        case Uploaded(uri, ext) =>
          && imageUrl == Some(publicUrl(FilePath(userId, now, ext)))
          && uploadError == None
          && notices == old(notices) + [PathSelected(FilePath(userId, now, ext)), ErrorReported(None)]
    {
      request := None;
      if !granted {
        assert ImageAttempt(granted, pick, blob, reply) == Threw(PermissionDenied);
        Catch(PermissionDenied);
        return;
      }
      if pick.Cancelled? {
        return;
      }
      if pick.PickFailed? {
        assert ImageAttempt(granted, pick, blob, reply) == Threw(pick.message);
        Catch(pick.message);
        return;
      }
      var uri := pick.uri;
      if blob.FetchFailed? {
        assert ImageAttempt(granted, pick, blob, reply) == Threw(blob.message);
        Catch(blob.message);
        return;
      }
      if blob.size > TwoMiB {
        Catch(ImageTooLarge);
        return;
      }
      var ext := Extension(uri);
      request := Some(Request(userId, now, uri));
      if reply.StorageFailed? {
        assert ImageAttempt(granted, pick, blob, reply) == Threw(reply.message);
        Catch(reply.message);
        return;
      }
      assert ImageAttempt(granted, pick, blob, reply) == Uploaded(uri, ext);
      ShowUploaded(request.value.path);
    }

    /** The end of a successful upload: show the new file by its public URL, clear the error, report the path. */
    method ShowUploaded(filePath: string)
      modifies this
      ensures imageUrl == Some(publicUrl(filePath)) && uploadError == None
      ensures notices == old(notices) + [PathSelected(filePath), ErrorReported(None)]
      ensures PreviewOf(imageUrl) == Image(publicUrl(filePath)) || publicUrl(filePath) == ""
    {
      imageUrl := Some(publicUrl(filePath));
      uploadError := None;
      notices := notices + [PathSelected(filePath), ErrorReported(None)];
    }
  }
}

/**
 * The employer-ID field: pick an image document, check the picker's size is
 * at most 5 MiB, upload it to the `employer_id` bucket, and persist the
 * picker's file record in secure storage so that a later mount restores it.
 */
module EmployerIdUpload {
  import opened Wrappers
  import opened Text
  import opened FileJson
  import opened SecureStorage
  import opened Upload

  const Bucket := "employer_id"
  const StoreKey := "employerIdFile"
  const SelectFailed := "Error selecting employer ID"
  const LoadFailed := "Error loading saved employer ID"
  const EmptyLabel := "Upload Employer ID (Image)"

  /** The button text: the file's name, or the prompt when no file is set. */
  function ButtonLabel(file: Option<PickedFile>): (r: string)
    ensures file.Some? ==> r == file.value.name
    ensures file.None? ==> r == EmptyLabel
  {
    match file
    case Some(f) => f.name
    case None => EmptyLabel
  }

  /** The upload a handler run issues: the picker's own MIME type and name are sent. */
  function Request(userId: string, now: nat, file: PickedFile): (r: UploadRequest)
    ensures r.bucket == Bucket && r.uri == file.uri
    ensures r.contentType == file.mimeType && r.name == file.name
    ensures r.path == FilePath(userId, now, Extension(file.uri))
    ensures Extension(r.path) == Extension(file.uri) && IsPrefix(userId + "/", r.path)
  {
    UploadRequest(Bucket, FilePath(userId, now, Extension(file.uri)), file.uri, file.mimeType, file.name)
  }

  class EmployerIdField {
    const userId: string
    const store: SecureStore
    var employerIdFile: Option<PickedFile>
    var uploadError: Option<string>
    /** The calls made to `onFileSelect` and `onError`, oldest first. */
    var notices: seq<Notice>

    /** Mounting: take `initialValue` when given, otherwise restore the saved record. */
    constructor (userId: string, store: SecureStore, initialValue: Option<PickedFile>, readFailed: bool)
      ensures this.userId == userId && this.store == store && uploadError == None
      ensures initialValue.Some? ==> employerIdFile == initialValue && notices == []
      ensures initialValue.None? ==> match ReadSaved(store.items, StoreKey, readFailed)
        case NothingSaved => employerIdFile == None && notices == []
        case SavedFile(f) => employerIdFile == Some(f) && notices == [FileSelected(f)]
        case Unreadable => employerIdFile == None && notices == [ErrorReported(Some(LoadFailed))]
    {
      this.userId, this.store := userId, store;
      employerIdFile, uploadError, notices := None, None, [];
      new;
      InitialValueChanged(initialValue, readFailed);
    }

    /**
     * The `[initialValue]` effect, run at mount and again whenever the prop
     * changes: a given value replaces the field, an absent one restores the
     * saved record.
     */
    method InitialValueChanged(initialValue: Option<PickedFile>, readFailed: bool)
      modifies this
      ensures uploadError == old(uploadError)
      ensures initialValue.Some? ==> employerIdFile == initialValue && notices == old(notices)
      ensures initialValue.None? ==> match ReadSaved(store.items, StoreKey, readFailed)
        case NothingSaved => employerIdFile == old(employerIdFile) && notices == old(notices)
        case SavedFile(f) => employerIdFile == Some(f) && notices == old(notices) + [FileSelected(f)]
        case Unreadable => employerIdFile == old(employerIdFile) && notices == old(notices) + [ErrorReported(Some(LoadFailed))]
    {
      if initialValue.Some? {
        employerIdFile := initialValue;
      } else {
        LoadEmployerIdData(readFailed);
      }
    }

    /** `loadEmployerIdData`: restore the saved record and hand the parsed object to `onFileSelect`. */
    method LoadEmployerIdData(readFailed: bool)
      modifies this
      ensures uploadError == old(uploadError)
      ensures match ReadSaved(store.items, StoreKey, readFailed)
        case NothingSaved => employerIdFile == old(employerIdFile) && notices == old(notices)
        case SavedFile(f) => employerIdFile == Some(f) && notices == old(notices) + [FileSelected(f)]
        case Unreadable =>
          employerIdFile == old(employerIdFile) && notices == old(notices) + [ErrorReported(Some(LoadFailed))]
    {
      if readFailed {
        notices := notices + [ErrorReported(Some(LoadFailed))];
        return;
      }
      var saved := store.GetItem(StoreKey);
      if saved.None? || saved.value == "" {
        return;
      }
      var parsed := Parse(saved.value);
      if parsed.None? {
        notices := notices + [ErrorReported(Some(LoadFailed))];
        return;
      }
      employerIdFile := parsed;
      notices := notices + [FileSelected(parsed.value)];
    }

    /** The `catch` block: one fixed message, whatever was thrown. */
    method Catch()
      modifies this
      ensures uploadError == Some(SelectFailed)
      ensures notices == old(notices) + [ErrorReported(Some(SelectFailed))]
      ensures employerIdFile == old(employerIdFile)
    {
      uploadError := Some(SelectFailed);
      notices := notices + [ErrorReported(Some(SelectFailed))];
    }

    /**
     * `handleEmployerIdUpload`, with the picker result, `Date.now()`, storage's
     * reply and whether `setItemAsync` throws as parameters. Returns the upload
     * call made, if any.
     */
    method HandleEmployerIdUpload(pick: DocumentPick, now: nat, reply: StorageReply, persistFailed: bool)
      returns (request: Option<UploadRequest>)
      modifies this, store
      ensures request.Some? <==> pick.DocPicked? && pick.file.size <= FiveMiB
      ensures request.Some? ==> request.value == Request(userId, now, pick.file)
      ensures pick.DocCancelled? ==>
        && employerIdFile == old(employerIdFile) && uploadError == old(uploadError)
        && notices == old(notices) && store.items == old(store.items)
      ensures pick.DocPickFailed? ==>
        && employerIdFile == old(employerIdFile) && uploadError == Some(SelectFailed)
        && notices == old(notices) + [ErrorReported(Some(SelectFailed))] && store.items == old(store.items)
      ensures pick.DocPicked? && pick.file.size > FiveMiB ==>
        && employerIdFile == old(employerIdFile) && uploadError == Some(FileTooLarge)
        && notices == old(notices) + [ErrorReported(Some(FileTooLarge))] && store.items == old(store.items)
      ensures request.Some? && reply.StorageFailed? ==>
        && employerIdFile == old(employerIdFile) && uploadError == Some(SelectFailed)
        && notices == old(notices) + [ErrorReported(Some(SelectFailed))] && store.items == old(store.items)
      ensures request.Some? && reply.Stored? && persistFailed ==>
        && employerIdFile == Some(pick.file) && uploadError == Some(SelectFailed)
        && notices == old(notices) + [ErrorReported(Some(SelectFailed))] && store.items == old(store.items)
      ensures request.Some? && reply.Stored? && !persistFailed ==>
        && employerIdFile == Some(pick.file) && uploadError == None
        && notices == old(notices) + [PathSelected(request.value.path), ErrorReported(None)]
        && store.items == old(store.items)[StoreKey := Stringify(pick.file)]
    {
      request := None;
      if pick.DocCancelled? {
        return;
      }
      if pick.DocPickFailed? {
        Catch();
        return;
      }
      var file := pick.file;
      if file.size > FiveMiB {
        uploadError := Some(FileTooLarge);
        notices := notices + [ErrorReported(Some(FileTooLarge))];
        return;
      }
      request := Some(Request(userId, now, file));
      if reply.StorageFailed? {
        Catch();
        return;
      }
      KeepUploaded(file, request.value.path, persistFailed);
    }

    /**
     * The end of a successful upload: show the file, persist its record, and
     * report the storage path; a throwing `setItemAsync` lands in the `catch`
     * with the file already shown.
     */
    method KeepUploaded(file: PickedFile, filePath: string, persistFailed: bool)
      modifies this, store
      ensures employerIdFile == Some(file)
      ensures persistFailed ==>
        && uploadError == Some(SelectFailed)
        && notices == old(notices) + [ErrorReported(Some(SelectFailed))] && store.items == old(store.items)
      ensures !persistFailed ==>
        && uploadError == None
        && notices == old(notices) + [PathSelected(filePath), ErrorReported(None)]
        && store.items == old(store.items)[StoreKey := Stringify(file)]
    {
      employerIdFile := Some(file);
      if persistFailed {
        Catch();
        return;
      }
      store.SetItem(StoreKey, Stringify(file));
      uploadError := None;
      notices := notices + [PathSelected(filePath), ErrorReported(None)];
    }
  }

  /** A successful pick, upload and persist of `file` on a mounted field. */
  method UploadStored(field: EmployerIdField, file: PickedFile, now: nat)
    requires file.size <= FiveMiB
    modifies field, field.store
    ensures field.employerIdFile == Some(file)
    ensures field.notices == old(field.notices) + [PathSelected(FilePath(field.userId, now, Extension(file.uri))), ErrorReported(None)]
    ensures field.store.items == old(field.store.items)[StoreKey := Stringify(file)]
  {
    ghost var heard := field.notices;
    var request := field.HandleEmployerIdUpload(DocPicked(file), now, Stored, false);
    assert request == Some(Request(field.userId, now, file));
    assert field.notices == heard + [PathSelected(request.value.path), ErrorReported(None)];
  }

  /** A fresh mount over a store that holds `file` under the key restores it. */
  method Remount(store: SecureStore, userId: string, file: PickedFile) returns (field: EmployerIdField)
    requires ReadSaved(store.items, StoreKey, false) == SavedFile(file)
    ensures field.employerIdFile == Some(file) && field.notices == [FileSelected(file)]
  {
    field := new EmployerIdField(userId, store, None, false);
  }

  /**
   * A successful pick followed by a remount without `initialValue` shows the
   * same file again. The parent hears of the file differently the two times:
   * the upload reports the storage path, the restore reports the file object.
   * `mounted` is what the first mount reported.
   */
  method UploadThenRemount(store: SecureStore, userId: string, file: PickedFile, now: nat)
    returns (first: EmployerIdField, second: EmployerIdField, mounted: seq<Notice>)
    requires file.size <= FiveMiB
    modifies store
    ensures second.employerIdFile == first.employerIdFile == Some(file)
    ensures first.notices == mounted + [PathSelected(FilePath(userId, now, Extension(file.uri))), ErrorReported(None)]
    ensures second.notices == [FileSelected(file)]
  {
    first := new EmployerIdField(userId, store, None, false);
    mounted := first.notices;
    ghost var before := store.items;
    UploadStored(first, file, now);
    ReadAfterPersist(before, StoreKey, file);
    second := Remount(store, userId, file);
  }
}

/**
 * The resume field: pick a PDF, check the picker's size is at most 5 MiB, and
 * keep the picker's file record, in the component and in secure storage.
 * Nothing is sent to object storage here.
 */
module ResumeUpload {
  import opened Wrappers
  import opened FileJson
  import opened SecureStorage
  import opened Upload

  const StoreKey := "resumeFile"
  const SelectFailed := "Error selecting resume"
  const LoadFailed := "Error loading saved resume"
  const EmptyLabel := "Upload Resume (PDF)"

  /** The button text: the file's name, or the prompt when no file is set. */
  function ButtonLabel(file: Option<PickedFile>): (r: string)
    ensures file.Some? ==> r == file.value.name
    ensures file.None? ==> r == EmptyLabel
  {
    match file
    case Some(f) => f.name
    case None => EmptyLabel
  }

  class ResumeField {
    const store: SecureStore
    var resumeFile: Option<PickedFile>
    var uploadError: Option<string>
    /** The calls made to `onFileSelect` and `onError`, oldest first. */
    var notices: seq<Notice>

    /** Mounting: a given `initialValue` wins; otherwise the saved record is restored. */
    constructor (store: SecureStore, initialValue: Option<PickedFile>, readFailed: bool)
      ensures this.store == store && uploadError == None
      ensures initialValue.Some? ==> resumeFile == initialValue && notices == []
      ensures initialValue.None? ==> match ReadSaved(store.items, StoreKey, readFailed)
        case NothingSaved => resumeFile == None && notices == []
        case SavedFile(f) => resumeFile == Some(f) && notices == [FileSelected(f)]
        case Unreadable => resumeFile == None && notices == [ErrorReported(Some(LoadFailed))]
    {
      this.store := store;
      resumeFile, uploadError, notices := None, None, [];
      new;
      InitialValueChanged(initialValue, readFailed);
    }

    /**
     * The `[initialValue]` effect, run at mount and again whenever the prop
     * changes: a given value replaces the field, an absent one restores the
     * saved record.
     */
    method InitialValueChanged(initialValue: Option<PickedFile>, readFailed: bool)
      modifies this
      ensures uploadError == old(uploadError)
      ensures initialValue.Some? ==> resumeFile == initialValue && notices == old(notices)
      ensures initialValue.None? ==> match ReadSaved(store.items, StoreKey, readFailed)
        case NothingSaved => resumeFile == old(resumeFile) && notices == old(notices)
        case SavedFile(f) => resumeFile == Some(f) && notices == old(notices) + [FileSelected(f)]
        case Unreadable => resumeFile == old(resumeFile) && notices == old(notices) + [ErrorReported(Some(LoadFailed))]
    {
      if initialValue.Some? {
        resumeFile := initialValue;
      } else {
        LoadResumeData(readFailed);
      }
    }

    /** `loadResumeData`: restore the saved record and hand it to `onFileSelect`. */
    method LoadResumeData(readFailed: bool)
      modifies this
      ensures uploadError == old(uploadError)
      ensures match ReadSaved(store.items, StoreKey, readFailed)
        case NothingSaved => resumeFile == old(resumeFile) && notices == old(notices)
        case SavedFile(f) => resumeFile == Some(f) && notices == old(notices) + [FileSelected(f)]
        case Unreadable =>
          resumeFile == old(resumeFile) && notices == old(notices) + [ErrorReported(Some(LoadFailed))]
    {
      if readFailed {
        notices := notices + [ErrorReported(Some(LoadFailed))];
        return;
      }
      var saved := store.GetItem(StoreKey);
      if saved.None? || saved.value == "" {
        return;
      }
      var parsed := Parse(saved.value);
      if parsed.None? {
        notices := notices + [ErrorReported(Some(LoadFailed))];
        return;
      }
      resumeFile := parsed;
      notices := notices + [FileSelected(parsed.value)];
    }

    /** The `catch` block: one fixed message, whatever was thrown. */
    method Catch()
      modifies this
      ensures uploadError == Some(SelectFailed)
      ensures notices == old(notices) + [ErrorReported(Some(SelectFailed))]
      ensures resumeFile == old(resumeFile)
    {
      uploadError := Some(SelectFailed);
      notices := notices + [ErrorReported(Some(SelectFailed))];
    }

    /**
     * `handleResumeUpload`, with the picker result and whether `setItemAsync`
     * throws as parameters.
     */
    method HandleResumeUpload(pick: DocumentPick, persistFailed: bool)
      modifies this, store
      ensures pick.DocCancelled? ==>
        && resumeFile == old(resumeFile) && uploadError == old(uploadError)
        && notices == old(notices) && store.items == old(store.items)
      ensures pick.DocPickFailed? ==>
        && resumeFile == old(resumeFile) && uploadError == Some(SelectFailed)
        && notices == old(notices) + [ErrorReported(Some(SelectFailed))] && store.items == old(store.items)
      ensures pick.DocPicked? && pick.file.size > FiveMiB ==>
        && resumeFile == old(resumeFile) && uploadError == Some(FileTooLarge)
        && notices == old(notices) + [ErrorReported(Some(FileTooLarge))] && store.items == old(store.items)
      ensures pick.DocPicked? && pick.file.size <= FiveMiB && persistFailed ==>
        && resumeFile == Some(pick.file) && uploadError == Some(SelectFailed)
        && notices == old(notices) + [ErrorReported(Some(SelectFailed))] && store.items == old(store.items)
      ensures pick.DocPicked? && pick.file.size <= FiveMiB && !persistFailed ==>
        && resumeFile == Some(pick.file) && uploadError == None
        && notices == old(notices) + [FileSelected(pick.file), ErrorReported(None)]
        && store.items == old(store.items)[StoreKey := Stringify(pick.file)]
        && ButtonLabel(resumeFile) == pick.file.name
    {
      if pick.DocCancelled? {
        return;
      }
      if pick.DocPickFailed? {
        Catch();
        return;
      }
      var file := pick.file;
      if file.size > FiveMiB {
        uploadError := Some(FileTooLarge);
        notices := notices + [ErrorReported(Some(FileTooLarge))];
        return;
      }
      resumeFile := Some(file);
      if persistFailed {
        Catch();
        return;
      }
      store.SetItem(StoreKey, Stringify(file));
      uploadError := None;
      notices := notices + [FileSelected(file), ErrorReported(None)];
    }
  }

  /**
   * A resume of exactly 5 MiB is kept, and a remount without `initialValue`
   * restores it and hands the same object to `onFileSelect` again.
   */
  method PickThenRemount(store: SecureStore, file: PickedFile)
    returns (first: ResumeField, second: ResumeField)
    requires file.size == FiveMiB
    modifies store
    ensures first.resumeFile == second.resumeFile == Some(file)
    ensures first.uploadError == None
    ensures second.notices == [FileSelected(file)]
  {
    first := new ResumeField(store, None, false);
    ghost var before := store.items;
    first.HandleResumeUpload(DocPicked(file), false);
    assert first.resumeFile == Some(file);
    assert store.items == before[StoreKey := Stringify(file)];
    ReadAfterPersist(before, StoreKey, file);
    assert ReadSaved(store.items, StoreKey, false) == SavedFile(file);
    second := new ResumeField(store, None, false);
  }
}

/**
 * The main layout's state: the sidebar flag, the window width, the upload
 * flags, the list of uploaded files and the theme.
 */
module Layout {
  import opened Wrappers
  import opened Json
  import Seqs
  import Upload

  /** The width from which the sidebar is shown by default. */
  const DesktopWidth: int := 768

  /** A row of the "Uploaded Files" list. */
  datatype FileRecord = FileRecord(id: string, name: string, mime: string)

  /** One record per chosen file, each with the id drawn for it (random ids are an input here). */
  function NewRecords(files: seq<Upload.File>, ids: seq<string>): (r: seq<FileRecord>)
    requires |ids| == |files|
    ensures |r| == |files|
    ensures forall i :: 0 <= i < |r| ==>
              r[i].id == ids[i] && r[i].name == files[i].name && r[i].mime == files[i].mime
  {
    seq(|files|, i requires 0 <= i < |files| => FileRecord(ids[i], files[i].name, files[i].mime))
  }

  /** The test `file => file.id !== fileId`. */
  function NotId(id: string): FileRecord -> bool {
    (r: FileRecord) => r.id != id
  }

  /** `prev.filter(file => file.id !== fileId)`. */
  function WithoutId(records: seq<FileRecord>, id: string): seq<FileRecord> {
    Seqs.Filter(NotId(id), records)
  }

  /**
   * Removing an id drops every record with that id and keeps every other
   * record, in its original relative order.
   */
  lemma WithoutIdSpec(records: seq<FileRecord>, id: string, others: seq<FileRecord>)
    ensures forall i :: 0 <= i < |WithoutId(records, id)| ==> WithoutId(records, id)[i].id != id
    ensures forall i :: 0 <= i < |records| && records[i].id != id ==> records[i] in WithoutId(records, id)
    ensures WithoutId(records + others, id) == WithoutId(records, id) + WithoutId(others, id)
  {
    Seqs.FilterMembers(NotId(id), records);
    Seqs.FilterAppend(NotId(id), records, others);
  }

  /** Removing the same id twice is removing it once. */
  lemma WithoutIdIdempotent(records: seq<FileRecord>, id: string)
    ensures WithoutId(WithoutId(records, id), id) == WithoutId(records, id)
  {
    Seqs.FilterIdempotent(NotId(id), records);
  }

  /** Removing an id no record carries changes nothing. */
  lemma WithoutAbsentId(records: seq<FileRecord>, id: string)
    requires forall i :: 0 <= i < |records| ==> records[i].id != id
    ensures WithoutId(records, id) == records
  {
    Seqs.FilterAll(NotId(id), records);
  }

  class MainLayout {
    var sidebarOpen: bool
    var windowWidth: int
    var uploading: bool
    var uploadError: string
    var uploadedFiles: seq<FileRecord>
    var isDarkMode: bool
    /** Whether the document element carries the 'dark' class. */
    var darkClass: bool

    /** The theme flag and the 'dark' class agree. */
    predicate ThemeInSync()
      reads this
    {
      isDarkMode == darkClass
    }

    /** Mount: sidebar open iff the window is wide, theme read from the document. */
    constructor (width: int, documentIsDark: bool)
      ensures sidebarOpen == (width >= DesktopWidth) && windowWidth == width
      ensures !uploading && uploadError == "" && uploadedFiles == []
      ensures isDarkMode == documentIsDark && darkClass == documentIsDark
      ensures ThemeInSync()
    {
      sidebarOpen := width >= DesktopWidth;
      windowWidth := width;
      uploading := false;
      uploadError := "";
      uploadedFiles := [];
      isDarkMode := documentIsDark;
      darkClass := documentIsDark;
    }

    /** The resize listener: records the width and reopens or closes the sidebar by it. */
    method HandleResize(width: int)
      modifies this`windowWidth, this`sidebarOpen
      ensures windowWidth == width
      ensures sidebarOpen <==> width >= DesktopWidth
    {
      windowWidth := width;
      sidebarOpen := width >= DesktopWidth;
    }

    /** The menu button flips the sidebar. */
    method HandleSidebarToggle()
      modifies this`sidebarOpen
      ensures sidebarOpen == !old(sidebarOpen)
    {
      sidebarOpen := !sidebarOpen;
    }

    /**
     * Flips the theme and sets the document's 'dark' class to match it, so the
     * two agree afterwards even if they did not before.
     */
    method ToggleTheme()
      modifies this`isDarkMode, this`darkClass
      ensures isDarkMode == !old(isDarkMode)
      ensures ThemeInSync()
    {
      if isDarkMode {
        darkClass := false;
        isDarkMode := false;
      } else {
        darkClass := true;
        isDarkMode := true;
      }
    }

    /** The "Remove file" button. */
    method HandleRemoveFile(fileId: string)
      modifies this`uploadedFiles
      ensures uploadedFiles == WithoutId(old(uploadedFiles), fileId)
    {
      uploadedFiles := WithoutId(uploadedFiles, fileId);
    }

    /**
     * `handleFileUpload` up to the `await`: an empty selection returns at once;
     * otherwise the upload is marked in progress and the old error cleared.
     */
    method BeginUpload(files: seq<Upload.File>) returns (started: bool)
      modifies this`uploading, this`uploadError
      ensures started <==> |files| > 0
      ensures started ==> uploading && uploadError == ""
      ensures !started ==> uploading == old(uploading) && uploadError == old(uploadError)
    {
      if |files| == 0 {
        return false;
      }
      uploading := true;
      uploadError := "";
      started := true;
    }

    /**
     * `handleFileUpload` after the `await`: on success one record per chosen
     * file is appended after the existing ones; on failure the thrown value
     * (never `null`, whose `toString()` would throw) becomes the error as a string and the list stays as it was; either way
     * the upload is no longer in progress.
     */
    method FinishUpload(files: seq<Upload.File>, outcome: Result<Value, Value>, ids: seq<string>)
      requires |ids| == |files|
      requires outcome.Failure? ==> outcome.error != JNull
      modifies this`uploading, this`uploadError, this`uploadedFiles
      ensures !uploading
      ensures outcome.Success? ==>
                uploadedFiles == old(uploadedFiles) + NewRecords(files, ids) && uploadError == old(uploadError)
      ensures outcome.Failure? ==>
                uploadedFiles == old(uploadedFiles) && uploadError == ToJsString(outcome.error)
    {
      match outcome {
        case Success(_) =>
          var newFiles := NewRecords(files, ids);
          uploadedFiles := uploadedFiles + newFiles;
        case Failure(error) =>
          uploadError := ToJsString(error);
      }
      uploading := false;
    }

    /** The whole handler, with the upload helper answered by `reply`. */
    method HandleFileUpload(files: seq<Upload.File>, reply: Upload.Reply, ids: seq<string>)
      requires |ids| == |files|
      modifies this`uploading, this`uploadError, this`uploadedFiles
      ensures |files| == 0 ==>
                && uploading == old(uploading) && uploadError == old(uploadError)
                && uploadedFiles == old(uploadedFiles)
      ensures |files| > 0 ==> !uploading
      ensures |files| > 0 && |Upload.Spreadsheets(files)| < 2 ==>
                uploadedFiles == old(uploadedFiles) && uploadError == Upload.MissingSheetsMessage
      ensures |files| > 0 && |Upload.Spreadsheets(files)| >= 2 && reply.Answered? ==>
                uploadedFiles == old(uploadedFiles) + NewRecords(files, ids) && uploadError == ""
      ensures |files| > 0 && |Upload.Spreadsheets(files)| >= 2 && reply.Rejected? ==>
                && uploadedFiles == old(uploadedFiles)
                && uploadError == ToJsString(Upload.Thrown(Upload.Detail(reply.body), reply.message))
    {
      var started := BeginUpload(files);
      if !started {
        return;
      }
      var request, outcome := Upload.UploadFiles(files, reply);
      FinishUpload(files, outcome, ids);
    }
  }
}

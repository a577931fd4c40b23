/**
 * The report upload box: a drop zone and file picker that accept one
 * financial report after checking its MIME type and size, a simulated
 * upload that finishes a fixed delay later, and a question field whose
 * non-blank text is handed to the page.
 *
 * The upload delay is a timer: the model keeps the files whose timers are
 * scheduled and have not fired yet in `pendingUploads`. Every timer has the
 * same delay, so they fire in the order they were scheduled and
 * `CompleteUpload` always fires the oldest one. The two optional callbacks
 * are a presence flag each, and every call made to them is appended to a
 * log (`reportedUploads`, `submittedQuestions`).
 */
module UploadBox {
  import opened Wrappers
  import opened Text

  /** What the component reads of a browser `File`. */
  datatype FileInfo = FileInfo(name: string, mimeType: string, size: nat)

  /** Why a file was refused; the component shows the alert text of the reason. */
  datatype Rejection = UnsupportedType | TooLarge

  function AlertText(r: Rejection): string {
    match r
    case UnsupportedType => "Please upload a PDF, DOCX, or Excel file."
    case TooLarge => "File size must be less than 50MB."
  }

  /** PDF, DOCX, XLSX and XLS, by MIME type. */
  const AllowedTypes: seq<string> := [
    "application/pdf",
    "application/vnd.openxmlformats-officedocument.wordprocessingml.document",
    "application/vnd.openxmlformats-officedocument.spreadsheetml.sheet",
    "application/vnd.ms-excel"
  ]

  /** 50 MiB. */
  const MaxUploadBytes: nat := 50 * 1024 * 1024

  /** The validation of `handleFileSelect`: the type is checked first, then the size. */
  function CheckFile(f: FileInfo): (o: Outcome<Rejection>)
    ensures o == Pass <==> f.mimeType in AllowedTypes && f.size <= MaxUploadBytes
    ensures o == Fail(UnsupportedType) <==> f.mimeType !in AllowedTypes
    ensures o == Fail(TooLarge) <==> f.mimeType in AllowedTypes && f.size > MaxUploadBytes
  {
    if f.mimeType !in AllowedTypes then Fail(UnsupportedType)
    else if f.size > MaxUploadBytes then Fail(TooLarge)
    else Pass
  }

  predicate Accepted(f: FileInfo) {
    CheckFile(f) == Pass
  }

  /**
   * The size limit is inclusive: a file of exactly 50 MiB (52428800 bytes)
   * of an allowed type is accepted and one byte more is refused.
   */
  lemma LimitIsInclusive(name: string, mimeType: string)
    requires mimeType in AllowedTypes
    ensures Accepted(FileInfo(name, mimeType, 52428800))
    ensures CheckFile(FileInfo(name, mimeType, 52428801)) == Fail(TooLarge)
  {
  }

  /** A file of a refused type gets the type alert whatever its size. */
  lemma TypeCheckedFirst(f: FileInfo)
    requires f.mimeType !in AllowedTypes && f.size > MaxUploadBytes
    ensures CheckFile(f) == Fail(UnsupportedType)
    ensures AlertText(CheckFile(f).error) == "Please upload a PDF, DOCX, or Excel file."
  {
  }

  class UploadBox {
    /** Whether the page passed `onFileUpload` / `onQuestionSubmit`. */
    const hasOnFileUpload: bool
    const hasOnQuestionSubmit: bool

    var isDragOver: bool
    var uploadedFile: Option<FileInfo>
    var question: string
    var isUploading: bool
    /** Files whose upload timer has not fired yet, oldest first. */
    var pendingUploads: seq<FileInfo>
    /** The files handed to `onFileUpload`, in order. */
    var reportedUploads: seq<FileInfo>
    /** The questions handed to `onQuestionSubmit`, in order. */
    var submittedQuestions: seq<string>

    /**
     * Only accepted files are ever shown, waiting or reported; the uploading
     * flag is only up while a timer is outstanding; a callback the page did
     * not pass is never called; no blank question is ever handed on.
     */
    ghost predicate Valid()
      reads this
    {
      && (uploadedFile.Some? ==> Accepted(uploadedFile.value))
      && (forall i :: 0 <= i < |pendingUploads| ==> Accepted(pendingUploads[i]))
      && (forall i :: 0 <= i < |reportedUploads| ==> Accepted(reportedUploads[i]))
      && (isUploading ==> pendingUploads != [])
      && (!hasOnFileUpload ==> reportedUploads == [])
      && (!hasOnQuestionSubmit ==> submittedQuestions == [])
      && (forall i :: 0 <= i < |submittedQuestions| ==> !IsBlank(submittedQuestions[i]))
    }

    constructor (hasOnFileUpload: bool, hasOnQuestionSubmit: bool)
      ensures Valid()
      ensures this.hasOnFileUpload == hasOnFileUpload && this.hasOnQuestionSubmit == hasOnQuestionSubmit
      ensures !isDragOver && uploadedFile == None && question == "" && !isUploading
      ensures pendingUploads == [] && reportedUploads == [] && submittedQuestions == []
    {
      this.hasOnFileUpload := hasOnFileUpload;
      this.hasOnQuestionSubmit := hasOnQuestionSubmit;
      isDragOver := false;
      uploadedFile := None;
      question := "";
      isUploading := false;
      pendingUploads := [];
      reportedUploads := [];
      submittedQuestions := [];
    }

    /** `handleDragOver`: highlights the drop zone. */
    method DragOver()
      requires Valid()
      modifies this`isDragOver
      ensures Valid() && isDragOver
    {
      isDragOver := true;
    }

    /** `handleDragLeave`: removes the highlight. */
    method DragLeave()
      requires Valid()
      modifies this`isDragOver
      ensures Valid() && !isDragOver
    {
      isDragOver := false;
    }

    /**
     * `handleFileSelect`: a refused file changes nothing; an accepted one
     * becomes the shown file, the uploading flag goes up and its upload
     * timer is scheduled.
     */
    method FileSelect(f: FileInfo) returns (outcome: Outcome<Rejection>)
      requires Valid()
      modifies this`uploadedFile, this`isUploading, this`pendingUploads
      ensures Valid() && outcome == CheckFile(f)
      ensures outcome.Fail? ==> (uploadedFile == old(uploadedFile) && isUploading == old(isUploading)
        && pendingUploads == old(pendingUploads))
      ensures outcome.Pass? ==> (uploadedFile == Some(f) && isUploading
        && pendingUploads == old(pendingUploads) + [f])
    {
      outcome := CheckFile(f);
      if outcome.Fail? {
        return;
      }
      uploadedFile := Some(f);
      isUploading := true;
      pendingUploads := pendingUploads + [f];
    }

    /**
     * `handleDrop`: the highlight is always removed; of the dropped files
     * only the first is selected, and an empty drop selects nothing.
     */
    method Drop(files: seq<FileInfo>) returns (outcome: Option<Outcome<Rejection>>)
      requires Valid()
      modifies this`isDragOver, this`uploadedFile, this`isUploading, this`pendingUploads
      ensures Valid() && !isDragOver
      ensures files == [] ==> (outcome == None && uploadedFile == old(uploadedFile)
        && isUploading == old(isUploading) && pendingUploads == old(pendingUploads))
      ensures files != [] ==> outcome == Some(CheckFile(files[0]))
      ensures files != [] && !Accepted(files[0]) ==> (uploadedFile == old(uploadedFile)
        && isUploading == old(isUploading) && pendingUploads == old(pendingUploads))
      ensures files != [] && Accepted(files[0]) ==> (uploadedFile == Some(files[0]) && isUploading
        && pendingUploads == old(pendingUploads) + [files[0]])
    {
      isDragOver := false;
      if |files| > 0 {
        var o := FileSelect(files[0]);
        outcome := Some(o);
      } else {
        outcome := None;
      }
    }

    /**
     * `handleFileInputChange`: the picker's file list may be missing or
     * empty, in which case nothing is selected; otherwise its first file is.
     */
    method FileInputChange(files: Option<seq<FileInfo>>) returns (outcome: Option<Outcome<Rejection>>)
      requires Valid()
      modifies this`uploadedFile, this`isUploading, this`pendingUploads
      ensures Valid()
      ensures (files == None || files.value == []) ==> (outcome == None && uploadedFile == old(uploadedFile)
        && isUploading == old(isUploading) && pendingUploads == old(pendingUploads))
      ensures files.Some? && files.value != [] ==> outcome == Some(CheckFile(files.value[0]))
      ensures files.Some? && files.value != [] && !Accepted(files.value[0]) ==> (uploadedFile == old(uploadedFile)
        && isUploading == old(isUploading) && pendingUploads == old(pendingUploads))
      ensures files.Some? && files.value != [] && Accepted(files.value[0]) ==> (uploadedFile == Some(files.value[0])
        && isUploading && pendingUploads == old(pendingUploads) + [files.value[0]])
    {
      if files.Some? && |files.value| > 0 {
        var o := FileSelect(files.value[0]);
        outcome := Some(o);
      } else {
        outcome := None;
      }
    }

    /**
     * The oldest upload timer fires: the uploading flag goes down and that
     * file is handed to `onFileUpload` when the page passed one, even if the
     * file was removed from the box in the meantime.
     */
    method CompleteUpload()
      requires Valid() && pendingUploads != []
      modifies this`isUploading, this`pendingUploads, this`reportedUploads
      ensures Valid() && !isUploading
      ensures pendingUploads == old(pendingUploads[1..])
      ensures reportedUploads == old(reportedUploads) + (if hasOnFileUpload then [old(pendingUploads[0])] else [])
    {
      var f := pendingUploads[0];
      isUploading := false;
      pendingUploads := pendingUploads[1..];
      if hasOnFileUpload {
        reportedUploads := reportedUploads + [f];
      }
    }

    /** The question field's change handler. */
    method SetQuestion(text: string)
      requires Valid()
      modifies this`question
      ensures Valid() && question == text
    {
      question := text;
    }

    /**
     * `handleQuestionSubmit`: a blank question changes nothing; otherwise the
     * question, untrimmed, is handed to `onQuestionSubmit` when the page
     * passed one, and the field is cleared either way.
     */
    method SubmitQuestion() returns (submitted: bool)
      requires Valid()
      modifies this`question, this`submittedQuestions
      ensures Valid()
      ensures submitted <==> !IsBlank(old(question))
      ensures !submitted ==> question == old(question) && submittedQuestions == old(submittedQuestions)
      ensures submitted ==> (question == "" && submittedQuestions == old(submittedQuestions)
        + (if hasOnQuestionSubmit then [old(question)] else []))
    {
      if IsBlank(question) {
        return false;
      }
      if hasOnQuestionSubmit {
        submittedQuestions := submittedQuestions + [question];
      }
      question := "";
      submitted := true;
    }

    /**
     * `removeFile`: the box shows the drop zone again. The upload flag, any
     * outstanding timer and the question are left alone.
     */
    method RemoveFile()
      requires Valid()
      modifies this`uploadedFile
      ensures Valid() && uploadedFile == None
    {
      uploadedFile := None;
    }
  }
}

/**
 * The upload form: client-side validation of the chosen file, the state the
 * drop, select, remove and submit handlers move through, and the simulated
 * progress counter.
 */
module FileUpload {
  import opened Wrappers
  import opened Js

  /** The MIME types the form accepts: PDF, DOC, DOCX and plain text. */
  const AcceptedFileTypes: seq<string> := [
    "application/pdf",
    "application/msword",
    "application/vnd.openxmlformats-officedocument.wordprocessingml.document",
    "text/plain"
  ]

  /** 100 MiB. */
  const MaxFileSize: nat := 100 * 1024 * 1024

  const UnsupportedTypeMessage := "File type not supported. Please upload PDF, DOC, DOCX, or TXT files."
  const TooLargeMessage := "File size exceeds 100MB limit."
  const SubmitFallback := "Failed to submit check"

  /**
   * `validateFile`: no error exactly for an accepted type within the size
   * limit; the type is checked first, so a file that fails both gets the
   * type message.
   */
  function ValidateFile(f: Blob): (err: Option<string>)
    ensures err.None? <==> f.mimeType in AcceptedFileTypes && f.size <= MaxFileSize
    ensures f.mimeType !in AcceptedFileTypes ==> err == Some(UnsupportedTypeMessage)
    ensures f.mimeType in AcceptedFileTypes && f.size > MaxFileSize ==> err == Some(TooLargeMessage)
  {
    if f.mimeType !in AcceptedFileTypes then Some(UnsupportedTypeMessage)
    else if f.size > MaxFileSize then Some(TooLargeMessage)
    else None
  }

  /** A file of exactly 104,857,600 bytes passes and one byte more fails, for every accepted type. */
  lemma SizeBoundary(name: string, mimeType: string)
    requires mimeType in AcceptedFileTypes
    ensures ValidateFile(Blob(name, mimeType, 104857600)) == None
    ensures ValidateFile(Blob(name, mimeType, 104857601)) == Some(TooLargeMessage)
  {
  }

  /** `FILE_TYPE_LABELS[file.type] || 'Document'`: the short label shown for the held file. */
  function FileTypeLabel(mimeType: string): (shortLabel: string)
    ensures shortLabel != "Document" <==> mimeType in AcceptedFileTypes
    ensures mimeType == "application/pdf" ==> shortLabel == "PDF"
    ensures mimeType == "application/msword" ==> shortLabel == "DOC"
    ensures mimeType == "application/vnd.openxmlformats-officedocument.wordprocessingml.document" ==> shortLabel == "DOCX"
    ensures mimeType == "text/plain" ==> shortLabel == "TXT"
  {
    if mimeType == "application/pdf" then "PDF"
    else if mimeType == "application/msword" then "DOC"
    else if mimeType == "application/vnd.openxmlformats-officedocument.wordprocessingml.document" then "DOCX"
    else if mimeType == "text/plain" then "TXT"
    else "Document"
  }

  /** One firing of the progress interval: `Math.min(prev + 10, 90)`. */
  function Tick(progress: int): int {
    if progress + 10 <= 90 then progress + 10 else 90
  }

  /** The progress shown after `n` firings of the interval, starting from 0. */
  function ProgressAfter(n: nat): (p: int)
    ensures p == if 10 * n <= 90 then 10 * n else 90
    ensures 0 <= p <= 90
  {
    if n == 0 then 0 else Tick(ProgressAfter(n - 1))
  }

  /** The simulated progress never goes down. */
  lemma ProgressNeverDecreases(m: nat, n: nat)
    requires m <= n
    ensures ProgressAfter(m) <= ProgressAfter(n) <= 90
  {
  }

  /** The upload ends in a redirect: the response is OK, its body parses and is not `null`. */
  predicate Redirects(reply: Fetched<JsonValue>) {
    !FetchFailed(reply) && !reply.json.value.JNull?
  }

  /** The detail page of the created check: `/check/${data.checkId}`. */
  function CheckPath(data: JsonValue): string
    requires !data.JNull?
  {
    "/check/" + TemplateText(ReadProperty(data, "checkId").value)
  }

  /**
   * The message shown when the upload does not redirect: the rejection or
   * parse message, `data.error || data.message || 'Failed to submit check'`
   * for a not-OK response, or the TypeError of reading `checkId` of `null`.
   */
  function SubmitError(reply: Fetched<JsonValue>): (msg: string)
    requires !Redirects(reply)
    ensures reply.Rejected? ==> msg == reply.message
    ensures reply.NotOk? && reply.errorJson.Err? ==> msg == reply.errorJson.error
    ensures reply.NotOk? && reply.errorJson.Ok? ==>
      var data := reply.errorJson.value;
      msg == (if data.JNull? then NullReadMessage("error")
              else if TruthyMember(data, "error") then ToJsString(data.members["error"])
              else if TruthyMember(data, "message") then ToJsString(data.members["message"])
              else SubmitFallback)
    ensures reply.Succeeded? ==> msg == (if reply.json.Err? then reply.json.error else NullReadMessage("checkId"))
  {
    if FetchFailed(reply) then
      FailureMessage(reply, ["error", "message"], SubmitFallback)
    else NullReadMessage("checkId")
  }

  class UploadForm {
    var isDragging: bool
    var file: Option<Blob>
    var isUploading: bool
    var error: Option<string>
    var uploadProgress: int
    /** The files posted to `/api/check`, each as the form's `file` field. */
    var submitted: seq<Blob>
    /** Where the router was last sent. */
    var redirectedTo: Option<string>

    constructor ()
      ensures !isDragging && file == None && !isUploading && error == None && uploadProgress == 0
      ensures submitted == [] && redirectedTo == None
    {
      isDragging := false;
      file := None;
      isUploading := false;
      error := None;
      uploadProgress := 0;
      submitted := [];
      redirectedTo := None;
    }

    method HandleDragOver()
      modifies this`isDragging
      ensures isDragging
    {
      isDragging := true;
    }

    method HandleDragLeave()
      modifies this`isDragging
      ensures !isDragging
    {
      isDragging := false;
    }

    /**
     * Takes the event's first file, if any: a valid file becomes the held
     * file and clears the error; an invalid one sets the error and leaves
     * the held file as it was.
     */
    method TakeFile(candidate: Option<Blob>)
      modifies this`file, this`error
      ensures candidate.None? ==> file == old(file) && error == None
      ensures candidate.Some? && ValidateFile(candidate.value).Some? ==>
        file == old(file) && error == ValidateFile(candidate.value)
      ensures candidate.Some? && ValidateFile(candidate.value).None? ==>
        file == candidate && error == None
    {
      error := None;
      if candidate.Some? {
        var validationError := ValidateFile(candidate.value);
        if validationError.Some? {
          error := validationError;
          return;
        }
        file := candidate;
      }
    }

    /** `handleDrop`: ends the drag, then takes the dropped file. */
    method HandleDrop(dropped: Option<Blob>)
      modifies this`isDragging, this`file, this`error
      ensures !isDragging
      ensures dropped.None? ==> file == old(file) && error == None
      ensures dropped.Some? && ValidateFile(dropped.value).Some? ==>
        file == old(file) && error == ValidateFile(dropped.value)
      ensures dropped.Some? && ValidateFile(dropped.value).None? ==> file == dropped && error == None
    {
      isDragging := false;
      TakeFile(dropped);
    }

    /** `handleFileSelect`: takes the chosen file. */
    method HandleFileSelect(selected: Option<Blob>)
      modifies this`file, this`error
      ensures selected.None? ==> file == old(file) && error == None
      ensures selected.Some? && ValidateFile(selected.value).Some? ==>
        file == old(file) && error == ValidateFile(selected.value)
      ensures selected.Some? && ValidateFile(selected.value).None? ==> file == selected && error == None
    {
      TakeFile(selected);
    }

    /** The "Remove file" button. */
    method RemoveFile()
      modifies this`file
      ensures file == None
    {
      file := None;
    }

    /**
     * `handleSubmit`. Without a held file nothing happens. Otherwise the
     * upload starts with progress 0 and the interval fires `ticks` times
     * before the response; `shown` is the progress seen meanwhile. A
     * redirect leaves progress at 100 and no error; any failure resets
     * progress to 0 and shows its message. Uploading ends in every case and
     * the held file is kept.
     */
    method HandleSubmit(ticks: nat, reply: Fetched<JsonValue>) returns (ghost shown: seq<int>)
      modifies this`isUploading, this`error, this`uploadProgress, this`submitted, this`redirectedTo
      ensures old(file).None? ==>
        && isUploading == old(isUploading) && error == old(error) && uploadProgress == old(uploadProgress)
        && submitted == old(submitted) && redirectedTo == old(redirectedTo) && shown == []
      ensures old(file).Some? ==>
        && !isUploading
        && submitted == old(submitted) + [file.value]
        && |shown| == ticks + 1
        && (forall k | 0 <= k < |shown| :: shown[k] == ProgressAfter(k) && 0 <= shown[k] <= 90)
      ensures old(file).Some? && Redirects(reply) ==>
        error == None && uploadProgress == 100 && redirectedTo == Some(CheckPath(reply.json.value))
      ensures old(file).Some? && !Redirects(reply) ==>
        error == Some(SubmitError(reply)) && uploadProgress == 0 && redirectedTo == old(redirectedTo)
    {
      if file.None? {
        return [];
      }
      isUploading := true;
      error := None;
      uploadProgress := 0;

      var i := 0;
      shown := [uploadProgress];
      while i < ticks
        invariant 0 <= i <= ticks
        invariant uploadProgress == ProgressAfter(i)
        invariant |shown| == i + 1
        invariant forall k | 0 <= k < |shown| :: shown[k] == ProgressAfter(k)
        invariant error == None && submitted == old(submitted) && redirectedTo == old(redirectedTo)
      {
        uploadProgress := Tick(uploadProgress);
        i := i + 1;
        shown := shown + [uploadProgress];
      }

      submitted := submitted + [file.value];
      if reply.Rejected? {
        error := Some(reply.message);
        uploadProgress := 0;
      } else {
        uploadProgress := 100;
        if Redirects(reply) {
          redirectedTo := Some(CheckPath(reply.json.value));
        } else {
          error := Some(SubmitError(reply));
          uploadProgress := 0;
        }
      }
      isUploading := false;
    }
  }
}

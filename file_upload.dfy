// The upload helpers of src/hooks/useFileUpload.ts: allow-list and size-limit
// checks on a file's MIME type and byte size, and the three-field upload
// status record that the checks and the two upload calls overwrite.
module FileUpload {
  import opened JsText

  /** The parts of a browser File the checks read. */
  datatype FileInfo = FileInfo(mimeType: string, size: int)

  const AudioTypes: seq<string> := ["audio/mp3", "audio/mpeg", "audio/wav", "audio/ogg", "audio/m4a", "audio/aac"]
  const ImageTypes: seq<string> := ["image/jpeg", "image/jpg", "image/png", "image/gif", "image/webp"]

  const AudioMaxSize: int := 100 * 1024 * 1024
  const ImageMaxSize: int := 10 * 1024 * 1024

  const AudioTypeMessage := "Invalid file type. Please upload an audio file."
  const AudioSizeMessage := "File size too large. Maximum size is 100MB."
  const ImageTypeMessage := "Invalid file type. Please upload an image file."
  const ImageSizeMessage := "File size too large. Maximum size is 10MB."

  /** One allow-list-and-limit check: the type is looked at before the size. */
  function FileError(f: FileInfo, allowed: seq<string>, maxSize: int, typeMessage: string, sizeMessage: string): Option<string>
  {
    if f.mimeType !in allowed then Some(typeMessage)
    else if f.size > maxSize then Some(sizeMessage)
    else None
  }

  /** `validateAudioFile`'s verdict: the message it writes, or None when it accepts. */
  function AudioFileError(f: FileInfo): Option<string>
  {
    FileError(f, AudioTypes, AudioMaxSize, AudioTypeMessage, AudioSizeMessage)
  }

  /** `validateImageFile`'s verdict. */
  function ImageFileError(f: FileInfo): Option<string>
  {
    FileError(f, ImageTypes, ImageMaxSize, ImageTypeMessage, ImageSizeMessage)
  }

  /** An audio file is accepted exactly when its type is one of the six
      listed and it holds at most 100 MiB; a wrong type is reported whatever
      the size, and a file of exactly 100 MiB passes. */
  lemma AudioFileRules(f: FileInfo)
    ensures AudioFileError(f) == None <==>
      (f.mimeType == "audio/mp3" || f.mimeType == "audio/mpeg" || f.mimeType == "audio/wav" ||
       f.mimeType == "audio/ogg" || f.mimeType == "audio/m4a" || f.mimeType == "audio/aac") &&
      f.size <= 104857600
    ensures f.mimeType !in AudioTypes ==> AudioFileError(f) == Some(AudioTypeMessage)
    ensures f.mimeType in AudioTypes && f.size > 104857600 ==> AudioFileError(f) == Some(AudioSizeMessage)
  {
    assert AudioTypes[0] == "audio/mp3" && AudioTypes[1] == "audio/mpeg" && AudioTypes[2] == "audio/wav";
    assert AudioTypes[3] == "audio/ogg" && AudioTypes[4] == "audio/m4a" && AudioTypes[5] == "audio/aac";
  }

  /** An image is accepted exactly when its type is one of the five listed
      and it holds at most 10 MiB; a wrong type is reported whatever the size. */
  lemma ImageFileRules(f: FileInfo)
    ensures ImageFileError(f) == None <==>
      (f.mimeType == "image/jpeg" || f.mimeType == "image/jpg" || f.mimeType == "image/png" ||
       f.mimeType == "image/gif" || f.mimeType == "image/webp") &&
      f.size <= 10485760
    ensures f.mimeType !in ImageTypes ==> ImageFileError(f) == Some(ImageTypeMessage)
    ensures f.mimeType in ImageTypes && f.size > 10485760 ==> ImageFileError(f) == Some(ImageSizeMessage)
  {
    assert ImageTypes[0] == "image/jpeg" && ImageTypes[1] == "image/jpg" && ImageTypes[2] == "image/png";
    assert ImageTypes[3] == "image/gif" && ImageTypes[4] == "image/webp";
  }

  /** The status record the hook keeps. */
  datatype UploadProgress = UploadProgress(progress: int, isUploading: bool, error: Option<string>)

  /** The answer of an upload request: the stored file's URL, or a thrown
      error (with its message when it was an Error). */
  datatype UploadOutcome = Uploaded(url: string) | UploadFailed(message: Option<string>)

  /** The record an upload ends with. */
  function Finished(outcome: UploadOutcome): (r: UploadProgress)
    ensures !r.isUploading
    ensures outcome.Uploaded? <==> r.error == None && r.progress == 100
    ensures outcome.UploadFailed? ==> r.progress == 0 && r.error.Some?
    ensures outcome.UploadFailed? && outcome.message.Some? ==> r.error == outcome.message
    ensures outcome.UploadFailed? && outcome.message.None? ==> r.error == Some("Upload failed")
  {
    match outcome
    case Uploaded(_) => UploadProgress(100, false, None)
    case UploadFailed(message) => UploadProgress(0, false, Some(if message.Some? then message.value else "Upload failed"))
  }

  class FileUploader {
    var uploadProgress: UploadProgress

    constructor ()
      ensures uploadProgress == UploadProgress(0, false, None)
    {
      uploadProgress := UploadProgress(0, false, None);
    }

    /** Runs one check; a rejection writes only the error of the record. */
    method Validate(e: Option<string>) returns (ok: bool)
      modifies this
      ensures ok <==> e == None
      ensures ok ==> uploadProgress == old(uploadProgress)
      ensures !ok ==> uploadProgress == old(uploadProgress).(error := e)
    {
      if e.Some? {
        uploadProgress := uploadProgress.(error := e);
        return false;
      }
      return true;
    }

    method ValidateAudioFile(f: FileInfo) returns (ok: bool)
      modifies this
      ensures ok <==> AudioFileError(f) == None
      ensures ok ==> uploadProgress == old(uploadProgress)
      ensures !ok ==> uploadProgress == old(uploadProgress).(error := AudioFileError(f))
    {
      ok := Validate(AudioFileError(f));
    }

    method ValidateImageFile(f: FileInfo) returns (ok: bool)
      modifies this
      ensures ok <==> ImageFileError(f) == None
      ensures ok ==> uploadProgress == old(uploadProgress)
      ensures !ok ==> uploadProgress == old(uploadProgress).(error := ImageFileError(f))
    {
      ok := Validate(ImageFileError(f));
    }

    /** One upload: the record is `{0, uploading, no error}` while the request
        runs, then `Finished(outcome)`; the URL comes back on success. The
        record in between is returned as `during`. */
    method Upload(outcome: UploadOutcome) returns (url: Option<string>, during: UploadProgress)
      modifies this
      ensures during == UploadProgress(0, true, None)
      ensures uploadProgress == Finished(outcome)
      ensures url.Some? <==> outcome.Uploaded?
      ensures outcome.Uploaded? ==> url == Some(outcome.url)
    {
      uploadProgress := UploadProgress(0, true, None);
      during := uploadProgress;
      match outcome {
        case Uploaded(u) =>
          uploadProgress := UploadProgress(100, false, None);
          url := Some(u);
        case UploadFailed(message) =>
          uploadProgress := UploadProgress(0, false, Some(if message.Some? then message.value else "Upload failed"));
          url := None;
      }
    }

    /** `uploadAudio(snapId, file)`: the file and the snap id go to the
        server, which is not modelled; only the record and the answer are. */
    method UploadAudio(snapId: int, f: FileInfo, outcome: UploadOutcome) returns (url: Option<string>, during: UploadProgress)
      modifies this
      ensures during == UploadProgress(0, true, None)
      ensures uploadProgress == Finished(outcome)
      ensures url.Some? <==> outcome.Uploaded?
      ensures outcome.Uploaded? ==> url == Some(outcome.url)
    {
      url, during := Upload(outcome);
    }

    /** `uploadExternalAudio(snapId, url)`: the same record transitions as
        `uploadAudio`, for a file the server fetches itself. */
    method UploadExternalAudio(snapId: int, source: string, outcome: UploadOutcome) returns (url: Option<string>, during: UploadProgress)
      modifies this
      ensures during == UploadProgress(0, true, None)
      ensures uploadProgress == Finished(outcome)
      ensures url.Some? <==> outcome.Uploaded?
      ensures outcome.Uploaded? ==> url == Some(outcome.url)
    {
      url, during := Upload(outcome);
    }

    method ResetUploadState()
      modifies this
      ensures uploadProgress == UploadProgress(0, false, None)
    {
      uploadProgress := UploadProgress(0, false, None);
    }
  }
}

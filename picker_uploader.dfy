/**
 * The block uploader of src/editorjs-uploader.js. It hands one callback to the
 * host's `picker` and turns the file record that callback later receives into
 * a success payload with URLs derived from the file id, or into an error payload.
 */
module PickerUploader {
  import opened Optional
  import opened Payloads
  import DirectusToken
  import ImageStore

  /** The callback `uploadSelectedFile` hands to the picker, known by the uploader that made it. */
  datatype PickerCallback = PickerCallback(owner: Uploader)

  /** The fixed error message of this variant. */
  const NoFileSelected: string := "No file selected"

  /** `config.uploader.picker`: the host entry point, seen as the log of callbacks handed to it. */
  class Picker {
    var callbacks: seq<PickerCallback>

    constructor ()
      ensures callbacks == []
    {
      callbacks := [];
    }

    method Pick(callback: PickerCallback)
      modifies this
      ensures callbacks == old(callbacks) + [callback]
    {
      callbacks := callbacks + [callback];
    }
  }

  /** The `file` of the success payload built from a picked file record (no width or height). */
  function UploadedFile(baseURL: string, file: ImageStore.DirectusFile): FileData
  {
    PickedFile(
      size := file.filesize,
      name := file.filenameDownload,
      title := file.title,
      extension := Extension(file.filenameDownload),
      fileId := file.id,
      fileURL := ImageStore.FileUrl(baseURL, file.id),
      url := ImageStore.ImageUrl(baseURL, file.id))
  }

  /** The calls the picker callback makes when the host hands it `file`. */
  function CallbackEvents(baseURL: string, auth: DirectusToken.Headers, file: Option<ImageStore.DirectusFile>)
    : (events: seq<Event>)
    ensures Outcomes(events) == 1
    ensures file.None? ==> events == [Error(Failure(NoFileSelected))]
    ensures file.Some? ==>
      var f := file.value;
      && |events| == 2
      && events[0] == Preview(Some(DirectusToken.AddTokenToURL(auth, ImageStore.FileUrl(baseURL, f.id), None)))
      && events[1].Upload? && events[1].response.Success?
      && var data := events[1].response.file;
      && data.PickedFile?
      && data.size == f.filesize && data.name == f.filenameDownload && data.title == f.title
      && data.fileId == f.id
      && data.fileURL == ImageStore.FileUrl(baseURL, f.id)
      && data.url == ImageStore.ImageUrl(baseURL, f.id)
      && data.extension == Extension(data.name)
  {
    match file
    case Some(f) =>
      var response := Success(UploadedFile(baseURL, f));
      var preview := Preview(Some(DirectusToken.AddTokenToURL(auth, response.file.fileURL, None)));
      OutcomesSingleton(preview);
      OutcomesSingleton(Upload(response));
      OutcomesAppend([preview], [Upload(response)]);
      [preview, Upload(response)]
    case None => [Error(Failure(NoFileSelected))]
  }

  class Uploader {
    /** `config.uploader.picker` */
    const picker: Picker
    /** `config.uploader.baseURL` */
    const baseURL: string
    /** The API client's default headers, read by `config.uploader.addTokenToURL`. */
    const auth: DirectusToken.Headers
    /** Every call made on the host and on the block's callbacks, in order. */
    var events: seq<Event>

    constructor (picker: Picker, baseURL: string, auth: DirectusToken.Headers)
      ensures this.picker == picker && this.baseURL == baseURL && this.auth == auth && events == []
    {
      this.picker := picker;
      this.baseURL := baseURL;
      this.auth := auth;
      events := [];
    }

    /**
     * `uploadByFile`, up to its deferred part: hands the callback to the picker
     * as `uploadSelectedFile` does, then calls `onPreview()` with no argument.
     * The deferred injection swallows any failure.
     */
    method UploadByFile()
      modifies picker, this`events
      ensures picker.callbacks == old(picker.callbacks) + [PickerCallback(this)]
      ensures events == old(events) + [RegisterHandler, Preview(None)]
    {
      UploadSelectedFile();
      events := events + [Preview(None)];
    }

    /** `uploadByUrl`: reports the URL itself as uploaded, at once. */
    method UploadByUrl(url: string)
      modifies this`events
      ensures events == old(events) + [Upload(Success(LinkedFile(url)))]
    {
      events := events + [Upload(Success(LinkedFile(url)))];
    }

    /** `uploadSelectedFile`: hands exactly one callback to the picker. */
    method UploadSelectedFile()
      modifies picker, this`events
      ensures picker.callbacks == old(picker.callbacks) + [PickerCallback(this)]
      ensures events == old(events) + [RegisterHandler]
    {
      picker.Pick(PickerCallback(this));
      events := events + [RegisterHandler];
    }

    /** The body of the picker callback, run each time the host calls it with `file`. */
    method RunCallback(file: Option<ImageStore.DirectusFile>)
      modifies this`events
      ensures events == old(events) + CallbackEvents(baseURL, auth, file)
      ensures Outcomes(events) == Outcomes(old(events)) + 1
    {
      ghost var before := events;
      if file.Some? {
        var response := Success(UploadedFile(baseURL, file.value));
        events := events + [Preview(Some(DirectusToken.AddTokenToURL(auth, response.file.fileURL, None)))];
        events := events + [Upload(response)];
      } else {
        events := events + [Error(Failure(NoFileSelected))];
      }
      OutcomesAppend(before, CallbackEvents(baseURL, auth, file));
    }
  }
}

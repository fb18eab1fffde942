/**
 * The attachment-style uploader (src/custom-plugins/editorjs-uploader.js). It
 * shows the block's current file as the picker's preview, registers one
 * handler in the shared file-handler store, and turns the file record that
 * handler later receives into a success payload with URLs derived from the
 * file id, or into an error payload.
 */
module FileUploader {
  import opened Optional
  import opened Payloads
  import DirectusToken
  import ImageStore
  import FileHandlerStore

  /** The closure `uploadSelectedFile` registers, known by the uploader that made it. */
  datatype PendingFile = PendingFile(owner: Uploader)

  type Store = FileHandlerStore.FileHandler<PendingFile, Option<ImageStore.DirectusFile>>

  /** The `file` of the success payload built from a picked file record. */
  function UploadedFile(baseURL: string, file: ImageStore.DirectusFile): FileData
  {
    AttachmentFile(
      width := file.width,
      height := file.height,
      size := file.filesize,
      name := file.filenameDownload,
      title := file.title,
      extension := Extension(file.filenameDownload),
      fileId := file.id,
      fileURL := ImageStore.FileUrl(baseURL, file.id),
      url := ImageStore.ImageUrl(baseURL, file.id))
  }

  /** The calls the registered closure makes when the store hands it `file`. */
  function HandlerEvents(baseURL: string, auth: DirectusToken.Headers, noFileSelected: string,
                         file: Option<ImageStore.DirectusFile>): (events: seq<Event>)
    ensures Outcomes(events) == 1
    ensures file.None? ==> events == [Error(Failure(noFileSelected))]
    ensures file.Some? ==>
      var f := file.value;
      && |events| == 2
      && events[0] == Preview(Some(DirectusToken.AddTokenToURL(auth, ImageStore.FileUrl(baseURL, f.id), None)))
      && events[1].Upload? && events[1].response.Success?
      && var data := events[1].response.file;
      && data.AttachmentFile?
      && data.size == f.filesize && data.name == f.filenameDownload
      && data.title == f.title && data.width == f.width && data.height == f.height
      && data.fileId == f.id
      && data.fileURL == ImageStore.FileUrl(baseURL, f.id)
      && data.url == ImageStore.ImageUrl(baseURL, f.id)
      && data.extension == Extension(data.name)
  {
    match file
    case None => [Error(Failure(noFileSelected))]
    case Some(f) =>
      var response := Success(UploadedFile(baseURL, f));
      var preview := Preview(Some(DirectusToken.AddTokenToURL(auth, response.file.fileURL, None)));
      OutcomesSingleton(preview);
      OutcomesSingleton(Upload(response));
      OutcomesAppend([preview], [Upload(response)]);
      [preview, Upload(response)]
  }

  /** What happens to the browse injection `uploadByFile` defers by 500 ms. */
  datatype Injection = NotAttempted | Injected | Warned(message: string)

  /**
   * The deferred injection: skipped when the host offers no upload field,
   * otherwise attempted, and a failure (its text in `failure`) is only logged.
   */
  function DeferredInjection(hasUploadFieldElement: bool, failure: Option<string>): (outcome: Injection)
    ensures outcome.NotAttempted? <==> !hasUploadFieldElement
    ensures outcome.Injected? <==> hasUploadFieldElement && failure.None?
    ensures outcome.Warned? ==>
      failure.Some? && outcome.message == "editorjs-interface: Cannot get browsing component - " + failure.value
  {
    if !hasUploadFieldElement then NotAttempted
    else match failure
      case None => Injected
      case Some(error) => Warned("editorjs-interface: Cannot get browsing component - " + error)
  }

  /** The calls `uploadSelectedFile` makes before its handler is pending. */
  function SelectionEvents(auth: DirectusToken.Headers, currentFile: Option<string>): seq<Event>
  {
    (if DirectusToken.Truthy(currentFile)
     then [CurrentPreview(ImageStore.ImagePreviewUrl(auth, currentFile.value))]
     else [])
    + [RegisterHandler]
  }

  class Uploader {
    /** `config.uploader.setFileHandler`: the shared store. */
    const store: Store
    /** `config.uploader.baseURL` */
    const baseURL: string
    /** The API client's default headers, read by `config.uploader.addTokenToURL`. */
    const auth: DirectusToken.Headers
    /** `config.t.no_file_selected` */
    const noFileSelected: string
    /** Every call made on the host and on the block's callbacks, in order. */
    var events: seq<Event>

    constructor (store: Store, baseURL: string, auth: DirectusToken.Headers, noFileSelected: string)
      ensures this.store == store && this.baseURL == baseURL && this.auth == auth
      ensures this.noFileSelected == noFileSelected && events == []
    {
      this.store := store;
      this.baseURL := baseURL;
      this.auth := auth;
      this.noFileSelected := noFileSelected;
      events := [];
    }

    /**
     * `uploadByFile`: registers the handler as `uploadSelectedFile` does, calls
     * `onPreview()` with no argument, and returns what the deferred injection of
     * the file into the host's upload field comes to (`failure` is the text of
     * the error the host raises there, if any).
     */
    method UploadByFile(currentFile: Option<string>, hasUploadFieldElement: bool, failure: Option<string>)
      returns (deferred: Injection)
      modifies store`fileHandler, this`events
      ensures store.fileHandler == Some(PendingFile(this))
      ensures events == old(events) + SelectionEvents(auth, currentFile) + [Preview(None)]
      ensures deferred == DeferredInjection(hasUploadFieldElement, failure)
    {
      UploadSelectedFile(currentFile);
      events := events + [Preview(None)];
      // the timer callback, run after the handler is pending
      deferred := DeferredInjection(hasUploadFieldElement, failure);
    }

    /** `uploadByUrl`: reports the URL itself as uploaded, at once. */
    method UploadByUrl(url: string)
      modifies this`events
      ensures events == old(events) + [Upload(Success(LinkedFile(url)))]
    {
      events := events + [Upload(Success(LinkedFile(url)))];
    }

    /**
     * `uploadSelectedFile`. `currentFile` is what `this.getCurrentFile &&
     * this.getCurrentFile()` yields: `None` when the getter is missing or
     * returns nothing. A truthy current file is shown as the preview before the
     * handler is registered.
     */
    method UploadSelectedFile(currentFile: Option<string>)
      modifies store`fileHandler, this`events
      ensures store.fileHandler == Some(PendingFile(this))
      ensures events == old(events) + SelectionEvents(auth, currentFile)
    {
      if currentFile.Some? {
        var currentPreview := currentFile.value;
        if currentPreview != "" {
          events := events + [CurrentPreview(ImageStore.ImagePreviewUrl(auth, currentPreview))];
        }
      }
      store.SetFileHandler(PendingFile(this));
      events := events + [RegisterHandler];
    }

    /** The body of the registered closure, run when the store hands it `file`. */
    method RunHandler(file: Option<ImageStore.DirectusFile>)
      modifies this`events
      ensures events == old(events) + HandlerEvents(baseURL, auth, noFileSelected, file)
    {
      if file.None? {
        events := events + [Error(Failure(noFileSelected))];
        return;
      }
      var response := Success(UploadedFile(baseURL, file.value));
      events := events + [Preview(Some(DirectusToken.AddTokenToURL(auth, response.file.fileURL, None)))];
      events := events + [Upload(response)];
    }
  }

  /** The uploader whose handler is pending in the store, if any. */
  function PendingOwner(store: Store): set<object>
    reads store
  {
    if store.fileHandler.Some? then {store.fileHandler.value.owner} else {}
  }

  /**
   * The store's `handleFile` with the pending closure run: its owner, and no
   * other uploader, settles its request with exactly one outcome; the store's
   * slot is left empty.
   */
  method HandleFile(store: Store, file: Option<ImageStore.DirectusFile>)
    modifies store, PendingOwner(store)
    ensures store.fileHandler == None
    ensures store.calls == old(store.calls)
      + (if old(store.fileHandler).Some? then [FileHandlerStore.Call(old(store.fileHandler).value, file)] else [])
    ensures match old(store.fileHandler)
      case None => true
      case Some(p) =>
        && p.owner.events == old(p.owner.events)
             + HandlerEvents(p.owner.baseURL, p.owner.auth, p.owner.noFileSelected, file)
        && Outcomes(p.owner.events) == Outcomes(old(p.owner.events)) + 1
  {
    var pending := store.fileHandler;
    if pending.Some? {
      var owner := pending.value.owner;
      ghost var before := owner.events;
      owner.RunHandler(file);
      OutcomesAppend(before, HandlerEvents(owner.baseURL, owner.auth, owner.noFileSelected, file));
    }
    store.HandleFile(file);
  }
}

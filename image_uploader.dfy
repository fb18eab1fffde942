/**
 * The image block's uploader (src/custom-plugins/editorjs-uploader.ts). It opens
 * the shared image drawer, registers one asynchronous handler there, and turns
 * the image the drawer later hands that handler into exactly one of a success
 * payload (followed by a change notification) or an error payload.
 */
module ImageUploader {
  import opened Optional
  import opened Payloads
  import DirectusToken
  import ImageStore

  /** The closure `uploadSelectedFile` registers, known by the uploader that made it. */
  datatype PendingUpload = PendingUpload(owner: Uploader)

  type Drawer = ImageStore.ImageDrawer<PendingUpload>

  /**
   * `config.uploader.getRokkaHash`, settled: `Some(hash)` when the awaited lookup
   * resolves, `None` when it rejects or the configuration has no such function.
   */
  type HashLookup = string -> Option<string>

  /** `selectedImage.rokkaHash || await getRokkaHash(fileId)` settles with a value. */
  predicate HashSettles(getRokkaHash: HashLookup, selected: ImageStore.EditorJsImage)
  {
    selected.rokkaHash != "" || getRokkaHash(selected.fileId).Some?
  }

  /**
   * The `file` of the success payload, `{...selectedImage, rokkaHash}`: every
   * field of the picked image, with `rokkaHash` kept when truthy and otherwise
   * the answer of `getRokkaHash(fileId)`; `None` when that lookup rejects.
   */
  function UploadedImage(getRokkaHash: HashLookup, selected: ImageStore.EditorJsImage)
    : (image: Option<ImageStore.EditorJsImage>)
    ensures image.Some? <==> HashSettles(getRokkaHash, selected)
    ensures image.Some? ==> image.value.(rokkaHash := selected.rokkaHash) == selected
    ensures selected.rokkaHash != "" ==> image == Some(selected)
    ensures selected.rokkaHash == "" && image.Some? ==>
      Some(image.value.rokkaHash) == getRokkaHash(selected.fileId)
  {
    if selected.rokkaHash != "" then Some(selected)
    else match getRokkaHash(selected.fileId)
      case None => None
      case Some(hash) => Some(selected.(rokkaHash := hash))
  }

  /**
   * The calls the registered closure makes when the drawer hands it `selected`.
   * A rejected hash lookup rejects the closure's promise before any callback.
   */
  function HandlerEvents(noFileSelected: string, getRokkaHash: HashLookup, auth: DirectusToken.Headers,
                         selected: Option<ImageStore.EditorJsImage>): (events: seq<Event>)
    ensures Outcomes(events) == 1 <==> selected.None? || HashSettles(getRokkaHash, selected.value)
    ensures Outcomes(events) <= 1
    ensures DispatchChange in events <==> selected.Some? && HashSettles(getRokkaHash, selected.value)
    ensures selected.None? ==> events == [Error(Failure(noFileSelected))]
    ensures selected.Some? && !HashSettles(getRokkaHash, selected.value) ==> events == []
    ensures selected.Some? && HashSettles(getRokkaHash, selected.value) ==>
      var image := UploadedImage(getRokkaHash, selected.value).value;
      && |events| == 3
      && events[0] == Preview(Some(ImageStore.ImagePreviewUrl(auth, image.url)))
      && events[1] == Upload(Success(ImageFile(image)))
      && events[2] == DispatchChange
  {
    match selected
    case None => [Error(Failure(noFileSelected))]
    case Some(picked) =>
      match UploadedImage(getRokkaHash, picked)
      case None => []
      case Some(image) =>
        var response := Success(ImageFile(image));
        var preview := Preview(Some(ImageStore.ImagePreviewUrl(auth, image.url)));
        OutcomesSingleton(preview);
        OutcomesSingleton(Upload(response));
        OutcomesSingleton(DispatchChange);
        OutcomesAppend([preview], [Upload(response)]);
        OutcomesAppend([preview] + [Upload(response)], [DispatchChange]);
        assert [preview] + [Upload(response)] + [DispatchChange] == [preview, Upload(response), DispatchChange];
        [preview, Upload(response), DispatchChange]
  }

  class Uploader {
    /** `config.uploader`: the shared image drawer. */
    const drawer: Drawer
    /** `config.uploader.t.no_file_selected` */
    const noFileSelected: string
    /** `config.uploader.getRokkaHash`, as the way its awaited answer settles. */
    const getRokkaHash: HashLookup
    /** Every call made on the host and on the block's callbacks, in order. */
    var events: seq<Event>

    constructor (drawer: Drawer, noFileSelected: string, getRokkaHash: HashLookup)
      ensures this.drawer == drawer && this.noFileSelected == noFileSelected
      ensures this.getRokkaHash == getRokkaHash
      ensures events == []
    {
      this.drawer := drawer;
      this.noFileSelected := noFileSelected;
      this.getRokkaHash := getRokkaHash;
      events := [];
    }

    /**
     * `uploadSelectedFile`: opens the drawer, then registers this uploader's
     * handler, replacing whatever handler was pending.
     */
    method UploadSelectedFile()
      modifies drawer`imageDrawerOpen, drawer`fileHandler, this`events
      ensures drawer.imageDrawerOpen && drawer.fileHandler == Some(PendingUpload(this))
      ensures events == old(events) + [OpenDrawer, RegisterHandler]
    {
      drawer.OpenImageDrawer();
      events := events + [OpenDrawer];
      drawer.SetFileHandler(PendingUpload(this));
      events := events + [RegisterHandler];
    }

    /** The body of the registered closure, run when the drawer hands it `selected`. */
    method RunHandler(selected: Option<ImageStore.EditorJsImage>)
      modifies this`events
      ensures events == old(events) + HandlerEvents(noFileSelected, getRokkaHash, drawer.auth, selected)
    {
      if selected.None? {
        events := events + [Error(Failure(noFileSelected))];
        return;
      }
      var image := UploadedImage(getRokkaHash, selected.value);
      if image.None? {
        // the awaited lookup rejected: the closure's promise rejects, no callback fires
        return;
      }
      var response := Success(ImageFile(image.value));
      events := events + [Preview(Some(ImageStore.ImagePreviewUrl(drawer.auth, image.value.url)))];
      events := events + [Upload(response)];
      events := events + [DispatchChange];
    }
  }

  /** The uploader whose handler is pending in the drawer, if any. */
  function PendingOwner(drawer: Drawer): set<object>
    reads drawer
  {
    if drawer.fileHandler.Some? then {drawer.fileHandler.value.owner} else {}
  }

  /**
   * The drawer's `handleFile` with the pending closure run: the owner of the
   * pending handler, and no other uploader, settles its request with exactly one
   * outcome unless its hash lookup rejects; the drawer is reset.
   */
  method HandleFile(drawer: Drawer, selected: Option<ImageStore.EditorJsImage>)
    modifies drawer, PendingOwner(drawer)
    ensures drawer.IsReset()
    ensures drawer.calls == old(drawer.calls)
      + (if old(drawer.fileHandler).Some? then [ImageStore.Call(old(drawer.fileHandler).value, selected)] else [])
    ensures match old(drawer.fileHandler)
      case None => true
      case Some(p) =>
        && p.owner.events == old(p.owner.events)
             + HandlerEvents(p.owner.noFileSelected, p.owner.getRokkaHash, p.owner.drawer.auth, selected)
        && Outcomes(p.owner.events) == Outcomes(old(p.owner.events))
             + (if selected.None? || HashSettles(p.owner.getRokkaHash, selected.value) then 1 else 0)
  {
    var pending := drawer.fileHandler;
    if pending.Some? {
      var owner := pending.value.owner;
      ghost var before := owner.events;
      owner.RunHandler(selected);
      OutcomesAppend(before, HandlerEvents(owner.noFileSelected, owner.getRokkaHash, owner.drawer.auth, selected));
    }
    drawer.HandleFile(selected);
  }
}

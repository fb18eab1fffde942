/**
 * Client code that drives the stores and uploaders through the hand-offs the
 * page performs, using nothing but their contracts.
 */
module Scenarios {
  import opened Optional
  import opened Payloads
  import DirectusToken
  import ImageStore
  import FileHandlerStore
  import RelationSelector
  import ImageUploader
  import FileUploader
  import PickerUploader
  import Strings

  /** Two image blocks ask in turn; only the second registration is answered, once. */
  method SecondRegistrationWins(image: ImageStore.EditorJsImage)
  {
    var hash: ImageUploader.HashLookup := id => Some("h-" + id);
    var drawer := new ImageStore.ImageDrawer<ImageUploader.PendingUpload>("https://cms/", DirectusToken.Headers(None, None));
    var first := new ImageUploader.Uploader(drawer, "No file selected", hash);
    var second := new ImageUploader.Uploader(drawer, "No file selected", hash);
    first.UploadSelectedFile();
    second.UploadSelectedFile();
    ImageUploader.HandleFile(drawer, Some(image));
    assert first.events == [OpenDrawer, RegisterHandler];
    assert Outcomes(second.events[2..]) == 1;
    assert second.events[3] == Upload(Success(ImageFile(ImageUploader.UploadedImage(hash, image).value)));
    assert second.events[4] == DispatchChange;
    assert drawer.calls == [ImageStore.Call(ImageUploader.PendingUpload(second), Some(image))];
    // A second resolution finds no handler.
    ImageUploader.HandleFile(drawer, Some(image));
    assert |drawer.calls| == 1;
  }

  /** Closing the drawer discards the handler: a later resolution calls nothing; a new request works. */
  method CancelNeverResolves(image: ImageStore.EditorJsImage, hash: ImageUploader.HashLookup)
  {
    var drawer := new ImageStore.ImageDrawer<ImageUploader.PendingUpload>("https://cms/", DirectusToken.Headers(None, None));
    var uploader := new ImageUploader.Uploader(drawer, "No file selected", hash);
    uploader.UploadSelectedFile();
    drawer.CloseImageDrawer();
    ImageUploader.HandleFile(drawer, Some(image));
    assert uploader.events == [OpenDrawer, RegisterHandler] && drawer.calls == [];
    uploader.UploadSelectedFile();
    ImageUploader.HandleFile(drawer, None);
    assert uploader.events[4..] == [Error(Failure("No file selected"))];
  }

  /** An image without a hash whose lookup rejects: the block hears nothing back. */
  method RejectedLookupFiresNothing(image: ImageStore.EditorJsImage)
    requires image.rokkaHash == ""
  {
    var drawer := new ImageStore.ImageDrawer<ImageUploader.PendingUpload>("https://cms/", DirectusToken.Headers(None, None));
    var uploader := new ImageUploader.Uploader(drawer, "No file selected", _ => None);
    uploader.UploadSelectedFile();
    ImageUploader.HandleFile(drawer, Some(image));
    assert uploader.events == [OpenDrawer, RegisterHandler];
    assert drawer.IsReset();
  }

  /** A pasted URL is reported as uploaded at once, with the URL as the file. */
  method PastedUrl()
  {
    var picker := new PickerUploader.Picker();
    var uploader := new PickerUploader.Uploader(picker, "https://cms/", DirectusToken.Headers(None, None));
    uploader.UploadByUrl("https://x/img.png");
    assert uploader.events == [Upload(Success(LinkedFile("https://x/img.png")))];
    assert uploader.events[0].response.SuccessFlag() == 1;
  }

  /**
   * With no token, file 42 under https://cms/ gets `files/42` and `assets/42`
   * URLs, and the attachment preview is the unsigned file URL.
   */
  method FileFortyTwo()
  {
    var noAuth := DirectusToken.Headers(None, None);
    var file := ImageStore.DirectusFile("42", "a.png", "A", "image/png", 10, 1, 1, "", "");
    var store := new FileHandlerStore.FileHandler<FileUploader.PendingFile, Option<ImageStore.DirectusFile>>();
    var uploader := new FileUploader.Uploader(store, "https://cms/", noAuth, "No file selected");
    uploader.UploadSelectedFile(None);
    assert uploader.events == [RegisterHandler];
    FileUploader.HandleFile(store, Some(file));
    ghost var resolved := FileUploader.HandlerEvents("https://cms/", noAuth, "No file selected", Some(file));
    assert uploader.events == [RegisterHandler] + resolved;
    assert ImageStore.FileUrl("https://cms/", "42") == "https://cms/files/42";
    assert ImageStore.ImageUrl("https://cms/", "42") == "https://cms/assets/42";
    DirectusToken.NoTokenLeavesUrl(noAuth, "https://cms/files/42", None);
    assert resolved[0] == Preview(Some("https://cms/files/42"));
    var data := resolved[1].response.file;
    assert data.fileURL == "https://cms/files/42" && data.url == "https://cms/assets/42";
    assert data.name == "a.png";
  }

  /** The extension of `a.png` is `png`. */
  method PngExtension()
  {
    Strings.SplitJoin(["a", "png"], '.');
    assert Strings.Join(["a", "png"], '.') == "a.png";
    assert Extension("a.png") == "png";
  }

  /** With no token, the drawer's preview of asset 42 still carries the transformation key. */
  method DrawerPreviewOfFortyTwo()
  {
    var noAuth := DirectusToken.Headers(None, None);
    var file := ImageStore.DirectusFile("42", "a.png", "A", "image/png", 10, 1, 1, "", "");
    var drawer := new ImageStore.ImageDrawer<ImageUploader.PendingUpload>("https://cms/", noAuth);
    drawer.OnImageSelect(file);
    assert ImageStore.ImageUrl("https://cms/", "42") == "https://cms/assets/42";
    assert drawer.selectedImagePreviewUrl == ImageStore.ImagePreviewUrl(noAuth, "https://cms/assets/42");
    assert DirectusToken.GetToken(noAuth) == None;
    ImageStore.PreviewUrlShape(noAuth, "https://cms/assets/42");
    assert drawer.selectedImagePreviewUrl == "https://cms/assets/42" + ImageStore.PreviewKey;
  }

  /** A relation picker preselected with [7] saves [7, 9] once and forgets its pending state. */
  method RelationSaved(handler: nat)
  {
    var selector := new RelationSelector.RelationSelector<nat>();
    selector.SetCurrentSelection(Some([7]));
    selector.SetSelectionSaveHandler(handler);
    selector.ToggleOpen();
    selector.HandleSelectionSave([7, 9]);
    assert selector.saves == [RelationSelector.Save(handler, [7, 9])];
    assert selector.selectionSaveHandler == None && selector.currentSelection == None;
    assert selector.open;
    selector.ToggleOpen();
    assert !selector.open;
    selector.HandleSelectionSave([1]);
    assert |selector.saves| == 1;
  }
}

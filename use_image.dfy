/**
 * The image drawer (src/useImage.ts): the picker surface's open flag, the image
 * it shows, that image's preview URL, and the single pending file handler; plus
 * the pure conversion of a Directus file record into an Editor.js image.
 */
module ImageStore {
  import opened Optional
  import DirectusToken

  /** A file record as the Directus files collection returns it. */
  datatype DirectusFile = DirectusFile(
    id: string,
    filenameDownload: string,
    title: string,
    fileType: string,
    filesize: int,
    width: int,
    height: int,
    description: string,
    rokkaHash: string)

  /** The image record the Editor.js image block stores. */
  datatype EditorJsImage = EditorJsImage(
    fileId: string,
    name: string,
    title: string,
    description: string,
    fileType: string,
    size: int,
    width: int,
    height: int,
    fileURL: string,
    url: string,
    rokkaHash: string)

  /** The suffix every preview URL carries. */
  const PreviewKey: string := "&key=system-large-contain"

  /** `getImageUrl`: the file's asset under the API base. */
  function ImageUrl(apiBaseUrl: string, fileId: string): (url: string)
    ensures |url| == |apiBaseUrl| + 7 + |fileId|
    ensures url[..|apiBaseUrl|] == apiBaseUrl && url[|apiBaseUrl|..|apiBaseUrl| + 7] == "assets/"
    ensures url[|apiBaseUrl| + 7..] == fileId
  {
    apiBaseUrl + "assets/" + fileId
  }

  /** `getFileUrl`: the file's record under the API base. */
  function FileUrl(apiBaseUrl: string, fileId: string): (url: string)
    ensures |url| == |apiBaseUrl| + 6 + |fileId|
    ensures url[..|apiBaseUrl|] == apiBaseUrl && url[|apiBaseUrl|..|apiBaseUrl| + 6] == "files/"
    ensures url[|apiBaseUrl| + 6..] == fileId
  {
    apiBaseUrl + "files/" + fileId
  }

  /** An asset URL names its file: distinct ids give distinct URLs. */
  lemma ImageUrlInjective(apiBaseUrl: string, id1: string, id2: string)
    requires ImageUrl(apiBaseUrl, id1) == ImageUrl(apiBaseUrl, id2)
    ensures id1 == id2
  {
    var n := |apiBaseUrl| + 7;
    assert id1 == ImageUrl(apiBaseUrl, id1)[n..];
    assert id2 == ImageUrl(apiBaseUrl, id2)[n..];
  }

  /** A file URL is never an asset URL under the same base, whatever the two ids. */
  lemma FileUrlIsNotImageUrl(apiBaseUrl: string, id1: string, id2: string)
    ensures FileUrl(apiBaseUrl, id1) != ImageUrl(apiBaseUrl, id2)
  {
    assert FileUrl(apiBaseUrl, id1)[|apiBaseUrl|] == 'f';
    assert ImageUrl(apiBaseUrl, id2)[|apiBaseUrl|] == 'a';
  }

  /** An image whose two URLs are derived from its file id under `apiBaseUrl`. */
  predicate LinkedTo(apiBaseUrl: string, image: EditorJsImage)
  {
    image.fileURL == FileUrl(apiBaseUrl, image.fileId) && image.url == ImageUrl(apiBaseUrl, image.fileId)
  }

  /** The file record an Editor.js image was made from (the inverse field renaming). */
  function EditorJsImageToDirectusFile(image: EditorJsImage): DirectusFile
  {
    DirectusFile(image.fileId, image.name, image.title, image.fileType, image.size,
                 image.width, image.height, image.description, image.rokkaHash)
  }

  /**
   * `directusFileToEditorJsImage`: renames `filename_download`, `filesize` and
   * `rokka_hash`, copies the other fields and derives both URLs from the id.
   */
  function DirectusFileToEditorJsImage(apiBaseUrl: string, file: DirectusFile): (image: EditorJsImage)
    ensures LinkedTo(apiBaseUrl, image)
    ensures EditorJsImageToDirectusFile(image) == file
  {
    EditorJsImage(
      fileId := file.id,
      name := file.filenameDownload,
      title := file.title,
      description := file.description,
      fileType := file.fileType,
      size := file.filesize,
      width := file.width,
      height := file.height,
      fileURL := FileUrl(apiBaseUrl, file.id),
      url := ImageUrl(apiBaseUrl, file.id),
      rokkaHash := file.rokkaHash)
  }

  /** The conversion loses nothing: every linked image is the conversion of its own file record. */
  lemma ConversionIsBijective(apiBaseUrl: string, image: EditorJsImage)
    requires LinkedTo(apiBaseUrl, image)
    ensures DirectusFileToEditorJsImage(apiBaseUrl, EditorJsImageToDirectusFile(image)) == image
  {
  }

  /** `getImagePreviewUrl`: the signed URL with the large-contain transformation key appended. */
  function ImagePreviewUrl(auth: DirectusToken.Headers, imageUrl: string): (r: string)
    ensures |r| == |DirectusToken.AddTokenToURL(auth, imageUrl, None)| + |PreviewKey|
    ensures r[..|imageUrl|] == imageUrl
    ensures r[|r| - |PreviewKey|..] == PreviewKey
  {
    DirectusToken.AddTokenToURL(auth, imageUrl, None) + PreviewKey
  }

  /**
   * Without a token the key is glued on with `&` even though the URL has no
   * query yet; with one it follows the `access_token` parameter.
   */
  lemma PreviewUrlShape(auth: DirectusToken.Headers, imageUrl: string)
    ensures DirectusToken.GetToken(auth).None? ==> ImagePreviewUrl(auth, imageUrl) == imageUrl + PreviewKey
    ensures DirectusToken.GetToken(auth).Some? ==>
      ImagePreviewUrl(auth, imageUrl)
        == imageUrl + [DirectusToken.Separator(imageUrl)] + "access_token="
           + DirectusToken.GetToken(auth).value + PreviewKey
  {
    if DirectusToken.GetToken(auth).Some? {
      DirectusToken.AddTokenAppends(auth, imageUrl, None);
    }
  }

  /** One invocation of a registered handler, with the image `handleFile` passed it. */
  datatype Call<H> = Call(handler: H, image: Option<EditorJsImage>)

  /**
   * The drawer's state, shared by every image block of the page. `H` is the
   * type of the registered handler closures; `calls` records, in order, every
   * invocation of a handler by `HandleFile`.
   */
  class ImageDrawer<H> {
    const apiBaseUrl: string
    /** The API client's default headers, read by `addTokenToURL`. */
    const auth: DirectusToken.Headers

    var imageDrawerOpen: bool
    var selectedImage: Option<EditorJsImage>
    var selectedImagePreviewUrl: string
    var fileHandler: Option<H>
    var calls: seq<Call<H>>

    /** Closed, nothing selected, no preview, no handler. */
    predicate IsReset()
      reads this
    {
      !imageDrawerOpen && selectedImage == None && selectedImagePreviewUrl == "" && fileHandler == None
    }

    constructor (apiBaseUrl: string, auth: DirectusToken.Headers)
      ensures this.apiBaseUrl == apiBaseUrl && this.auth == auth
      ensures IsReset() && calls == []
    {
      this.apiBaseUrl := apiBaseUrl;
      this.auth := auth;
      imageDrawerOpen := false;
      selectedImage := None;
      selectedImagePreviewUrl := "";
      fileHandler := None;
      calls := [];
    }

    /** `closeImageDrawer`: resets the whole state, discarding any handler without calling it. */
    method CloseImageDrawer()
      modifies this`imageDrawerOpen, this`selectedImage, this`selectedImagePreviewUrl, this`fileHandler
      ensures IsReset()
    {
      selectedImage := None;
      selectedImagePreviewUrl := "";
      imageDrawerOpen := false;
      UnsetFileHandler();
    }

    /** `openImageDrawer`: only the open flag changes. */
    method OpenImageDrawer()
      modifies this`imageDrawerOpen
      ensures imageDrawerOpen
    {
      imageDrawerOpen := true;
    }

    /** `onImageSelect`: shows the converted file record and its preview. */
    method OnImageSelect(image: DirectusFile)
      modifies this`selectedImage, this`selectedImagePreviewUrl
      ensures selectedImage == Some(DirectusFileToEditorJsImage(apiBaseUrl, image))
      ensures selectedImagePreviewUrl == ImagePreviewUrl(auth, ImageUrl(apiBaseUrl, image.id))
    {
      var editorJsImage := DirectusFileToEditorJsImage(apiBaseUrl, image);
      selectedImage := Some(editorJsImage);
      selectedImagePreviewUrl := ImagePreviewUrl(auth, editorJsImage.url);
    }

    /** `onImageEdit`: shows an edited image and its preview. */
    method OnImageEdit(image: EditorJsImage)
      modifies this`selectedImage, this`selectedImagePreviewUrl
      ensures selectedImage == Some(image)
      ensures selectedImagePreviewUrl == ImagePreviewUrl(auth, image.url)
    {
      selectedImage := Some(image);
      selectedImagePreviewUrl := ImagePreviewUrl(auth, image.url);
    }

    /**
     * `unsetFileHandler`. The store does not return it; only `CloseImageDrawer`
     * and `HandleFile` call it.
     */
    method UnsetFileHandler()
      modifies this`fileHandler
      ensures fileHandler == None
    {
      fileHandler := None;
    }

    /** `setFileHandler`: the last registration wins. */
    method SetFileHandler(handler: H)
      modifies this`fileHandler
      ensures fileHandler == Some(handler)
    {
      fileHandler := Some(handler);
    }

    /**
     * `handleFile`: calls the registered handler, if any, once with the image,
     * then closes the drawer, which drops the handler.
     */
    method HandleFile(image: Option<EditorJsImage>)
      modifies this
      ensures calls == old(calls) + (if old(fileHandler).Some? then [Call(old(fileHandler).value, image)] else [])
      ensures IsReset()
    {
      if fileHandler.Some? {
        calls := calls + [Call(fileHandler.value, image)];
      }
      CloseImageDrawer();
    }
  }
}

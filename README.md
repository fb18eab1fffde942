# Asset-selection coordination for the Editor.js interface

This project models the layer through which the Editor.js blocks of the Directus
editor interface (image, attachment, personality card, relation reference) ask the
host for an asset and receive it back:

- **URL signing** (`DirectusToken`): `addQueryToPath` builds a `key=value&…` query and
  joins it to a path with `?` or `&`; `getToken` reads the bearer token from the API
  client's two `Authorization` defaults; `addTokenToURL` attaches `access_token`.
- **Single-slot pending-handler stores**: the image drawer (`ImageStore.ImageDrawer`:
  open flag, selected image, preview URL, file handler), the generic file-handler store
  (`FileHandlerStore.FileHandler`) and the relation selector
  (`RelationSelector.RelationSelector`: open flag, preselection, save handler). Each
  holds at most one handler, overwrites it on registration, and on resolution calls it
  once and clears it. Each store logs its handler invocations (`calls`, `saves`), so
  "called exactly once, with this argument" is part of every contract.
- **Three uploaders** (`ImageUploader`, `FileUploader`, `PickerUploader`), one per
  `Uploader` class. A registered closure is a datatype value naming the uploader that
  registered it. Running it appends the block callbacks it fires to the uploader's
  `events` trace: `Preview`, `Upload`, `Error`, `DispatchChange`, plus the host calls
  `OpenDrawer`, `RegisterHandler` and `CurrentPreview`. The closure bodies are the pure
  functions `HandlerEvents`/`CallbackEvents`. Each body is proved to fire exactly one
  success or error callback (`Payloads.Outcomes(events) == 1`), except that the
  image block's closure fires none when its awaited `getRokkaHash` lookup rejects,
  which is proved too. The composed
  `HandleFile` methods show that resolving a store runs the pending owner's closure and
  no other.
- **Tool-registry selection** (`Tools.GetTools`): the selection loop over the fixed
  `defaults` table, and the alignment-tune post-pass.

`Strings` models the JavaScript `split`/`join`/`pop` builtins the code relies on.
`Scenarios` holds client methods that drive the stores and uploaders through the
page's hand-offs, using only their contracts.

Behaviour of the code that the model keeps as written:

- `addTokenToURL` is not idempotent: signing twice appends `access_token` twice
  (`DirectusToken.SigningTwiceAppendsTwice`).
- Registration silently replaces a pending handler. No ticket is kept.
- `getToken` takes the second space-separated field of the header (`split(' ')[1]`),
  not everything after the first space.
- Without a token, the drawer's preview is the asset URL followed by
  `&key=system-large-contain`, glued on with `&` even though the URL has no `?`
  (`ImageStore.PreviewUrlShape`). The two `.js` uploaders preview the signed
  `files/<id>` URL, not the asset URL.
- Registering requires no open picker. Closing discards a pending handler without
  calling it, and resolving a store with no pending handler is silently dropped.
- In the image block, `await getRokkaHash(...)` is not guarded: when it rejects, the
  closure's promise rejects and neither `onError`, `onUpload` nor `dispatchChange`
  fires (`ImageUploader.HandlerEvents`).

## Model

| member | source | states |
|---|---|---|
| `DirectusToken.AddQueryToPath` | src/use-directus-token.ts:10-18 | the loop pushes `key=value` per entry; the result is the path, then `&` exactly when the path already holds `?` (else `?`), then the entries joined by `&`; the path is a prefix |
| `DirectusToken.QueryStringRoundTrip` | src/use-directus-token.ts:13-15 | the joined query text holds every entry in entry order: splitting on `&` and `=` gives the entries back |
| `DirectusToken.AddQueryToPathDecodes` | src/use-directus-token.ts:17 | after `addQueryToPath` the path is a prefix, the separator is `&` iff the path had `?`, and the rest parses back to the entries |
| `Strings.SplitJoin` | src/use-directus-token.ts:17 | `join` followed by `split` on the same separator is the identity when no piece holds it |
| `Strings.JoinSplit` | src/use-directus-token.ts:22 | `split` followed by `join` gives the string back |
| `DirectusToken.SecondField` | src/use-directus-token.ts:22-23 | `header?.split(' ')[1]` is absent or a text without spaces |
| `DirectusToken.GetToken` | src/use-directus-token.ts:20-26 | the token is the top-level header's second field if truthy, else the common header's, else null; a token is never empty and has no spaces |
| `DirectusToken.SecondFieldOfHeader` | src/use-directus-token.ts:22 | a `<scheme> <token>` header yields exactly its token |
| `DirectusToken.GetTokenFromCommonHeader` | src/use-directus-token.ts:22-23 | the common header's token is used when the top-level header yields nothing |
| `DirectusToken.AddTokenToURL` | src/use-directus-token.ts:28-34 | the URL is always a prefix, and the result equals the URL iff neither the explicit token nor the headers yield a token |
| `DirectusToken.AddTokenAppends` | src/use-directus-token.ts:31-33 | with a token, the result is the URL, the separator chosen as in `addQueryToPath`, then `access_token=<token>` |
| `DirectusToken.ExplicitTokenWins` | src/use-directus-token.ts:29 | a non-empty explicit token is used whatever the headers hold |
| `DirectusToken.NoTokenLeavesUrl` | src/use-directus-token.ts:30 | with no explicit token and none in the headers, the URL comes back unchanged |
| `DirectusToken.SigningTwiceAppendsTwice` | src/use-directus-token.ts:17-33 | signing a signed URL appends a second `access_token` parameter, joined with `&` |
| `ImageStore.ImageUrl` | src/useImage.ts:132-134 | the asset URL is the API base, then `assets/`, then the file id, so the id can be read back from its end |
| `ImageStore.FileUrl` | src/useImage.ts:136-138 | the file URL is the API base, then `files/`, then the file id, so the id can be read back from its end |
| `ImageStore.ImageUrlInjective` | src/useImage.ts:132-134 | distinct file ids give distinct asset URLs |
| `ImageStore.FileUrlIsNotImageUrl` | src/useImage.ts:132-138 | a `files/` URL never equals an `assets/` URL under the same base |
| `ImageStore.DirectusFileToEditorJsImage` | src/useImage.ts:116-130 | both URLs are derived from the id under the base; undoing the renaming (`name`, `size`, `rokkaHash`) gives the file record back |
| `ImageStore.ConversionIsBijective` | src/useImage.ts:116-130 | every image whose URLs derive from its id is the conversion of its own record |
| `ImageStore.ImagePreviewUrl` | src/useImage.ts:96-98 | the preview starts with the image URL and ends with `&key=system-large-contain`, right after the signed URL |
| `ImageStore.PreviewUrlShape` | src/useImage.ts:96-98 | without a token the preview is the URL plus `&key=system-large-contain`; with one, the `access_token` parameter comes between them |
| `ImageStore.ImageDrawer.constructor` | src/useImage.ts:49-52 | the drawer starts closed, with no image, an empty preview and no handler |
| `ImageStore.ImageDrawer.CloseImageDrawer` | src/useImage.ts:68-73 | closes the drawer and clears the image, preview and handler, without calling the handler |
| `ImageStore.ImageDrawer.OpenImageDrawer` | src/useImage.ts:75-77 | sets only the open flag |
| `ImageStore.ImageDrawer.OnImageSelect` | src/useImage.ts:82-86 | selects the converted record; its preview is derived from the record's asset URL; flag and handler untouched |
| `ImageStore.ImageDrawer.OnImageEdit` | src/useImage.ts:91-94 | selects the given image with the preview of its URL; flag and handler untouched |
| `ImageStore.ImageDrawer.UnsetFileHandler` | src/useImage.ts:100-102 | clears only the handler |
| `ImageStore.ImageDrawer.SetFileHandler` | src/useImage.ts:104-106 | the new handler replaces any previous one |
| `ImageStore.ImageDrawer.HandleFile` | src/useImage.ts:108-114 | the pending handler, if any, is called exactly once with the image; afterwards the drawer is reset, so a second call fires nothing |
| `FileHandlerStore.FileHandler.constructor` | src/use-filehandler.ts:6 | the store starts with no handler |
| `FileHandlerStore.FileHandler.UnsetFileHandler` | src/use-filehandler.ts:15-17 | clears the handler and nothing else |
| `FileHandlerStore.FileHandler.SetFileHandler` | src/use-filehandler.ts:19-21 | the new handler replaces any previous one |
| `FileHandlerStore.FileHandler.HandleFile` | src/use-filehandler.ts:23-29 | the pending handler, if any, is called exactly once with the event; the slot is empty afterwards either way |
| `RelationSelector.RelationSelector.constructor` | src/use-relation-selector.ts:6-8 | closed, no preselection, no save handler |
| `RelationSelector.RelationSelector.SetCurrentSelection` | src/use-relation-selector.ts:10-12 | stores the given ids (an empty array too), or nothing for null/undefined |
| `RelationSelector.RelationSelector.ToggleOpen` | src/use-relation-selector.ts:14-16 | negates the open flag, so two toggles restore it |
| `RelationSelector.RelationSelector.UnsetSelectionSaveHandler` | src/use-relation-selector.ts:18-21 | clears the handler and the preselection |
| `RelationSelector.RelationSelector.SetSelectionSaveHandler` | src/use-relation-selector.ts:23-25 | the new handler replaces any previous one |
| `RelationSelector.RelationSelector.HandleSelectionSave` | src/use-relation-selector.ts:27-33 | the pending handler, if any, is called exactly once with the selection; handler and preselection are cleared, the open flag is kept |
| `Payloads.OutcomesAppend` | src/custom-plugins/editorjs-uploader.ts:35-55 | success and error callbacks of consecutive stretches of a trace add up |
| `Strings.SplitLast` | src/editorjs-uploader.js:51 | the last piece of `split(sep)` is the text after the last separator, or the whole text when there is none |
| `Payloads.Extension` | src/custom-plugins/editorjs-uploader.js:70 | the extension has no dot, ends the file name, follows its last dot, and is the whole name when there is no dot |
| `ImageUploader.UploadedImage` | src/custom-plugins/editorjs-uploader.ts:43-50 | the payload file keeps every field of the picked image; `rokkaHash` is kept when truthy, else it is the settled answer of `getRokkaHash(fileId)`; there is no payload exactly when that lookup rejects |
| `ImageUploader.HandlerEvents` | src/custom-plugins/editorjs-uploader.ts:34-56 | at most one success or error callback, and exactly one iff there is no image or the hash settles; no image gives only the error payload; a rejected lookup gives no call at all; otherwise preview of the signed preview URL, then upload, then `dispatchChange`, which fires only on success |
| `ImageUploader.Uploader.constructor` | src/custom-plugins/editorjs-uploader.ts:18-23 | keeps the configuration; nothing has been called yet |
| `ImageUploader.Uploader.UploadSelectedFile` | src/custom-plugins/editorjs-uploader.ts:31-34 | opens the drawer, then registers this uploader's handler in place of any pending one |
| `ImageUploader.Uploader.RunHandler` | src/custom-plugins/editorjs-uploader.ts:34-56 | the closure appends exactly the calls `HandlerEvents` describes |
| `ImageUploader.HandleFile` | src/useImage.ts:108-114 | resolving the drawer runs the pending uploader's closure, and no other, which adds exactly one outcome unless its hash lookup rejects, and resets the drawer |
| `FileUploader.HandlerEvents` | src/custom-plugins/editorjs-uploader.js:53-79 | exactly one callback outcome; no file gives only the error payload; a file gives preview of the signed `files/<id>` URL, then upload of size, name, title, width, height, id, extension and both derived URLs |
| `FileUploader.DeferredInjection` | src/custom-plugins/editorjs-uploader.js:19-31 | nothing is attempted without an upload field; a failure is only logged with its message |
| `FileUploader.Uploader.constructor` | src/custom-plugins/editorjs-uploader.js:5-10 | keeps the configuration; nothing has been called yet |
| `FileUploader.Uploader.UploadByFile` | src/custom-plugins/editorjs-uploader.js:12-31 | registers the handler as `uploadSelectedFile` does, then calls `onPreview()` with no argument; the deferred injection comes to what `DeferredInjection` states |
| `FileUploader.Uploader.UploadByUrl` | src/custom-plugins/editorjs-uploader.js:34-41 | reports `{success: 1, file: {url}}` at once and nothing else |
| `FileUploader.Uploader.UploadSelectedFile` | src/custom-plugins/editorjs-uploader.js:43-53 | a truthy current file becomes the preview (signed, with the large-contain key) before this uploader's handler is registered |
| `FileUploader.Uploader.RunHandler` | src/custom-plugins/editorjs-uploader.js:53-79 | the closure appends exactly the calls `HandlerEvents` describes |
| `FileUploader.HandleFile` | src/use-filehandler.ts:23-29 | resolving the store runs the pending uploader's closure, which settles with exactly one outcome, and empties the slot |
| `PickerUploader.CallbackEvents` | src/editorjs-uploader.js:43-65 | exactly one callback outcome; no file gives only `No file selected`; a file gives preview of the signed `files/<id>` URL, then upload of size, name, title, id, extension and both URLs, with no width or height |
| `PickerUploader.Picker.Pick` | src/editorjs-uploader.js:43 | the picker receives the callback |
| `PickerUploader.Uploader.constructor` | src/editorjs-uploader.js:5-9 | keeps the configuration; nothing has been called yet |
| `PickerUploader.Uploader.UploadByFile` | src/editorjs-uploader.js:11-16 | hands one callback to the picker, then calls `onPreview()` with no argument |
| `PickerUploader.Uploader.UploadByUrl` | src/editorjs-uploader.js:33-40 | reports `{success: 1, file: {url}}` at once and nothing else |
| `PickerUploader.Uploader.UploadSelectedFile` | src/editorjs-uploader.js:42-43 | hands exactly one callback to the picker |
| `PickerUploader.Uploader.RunCallback` | src/editorjs-uploader.js:43-65 | each run of the callback appends the calls `CallbackEvents` describes, adding exactly one outcome |
| `Tools.Defaults` | src/get-tools.ts:41-134 | the table holds the file tools, the alignable tools and the tune; no entry has tunes; exactly image, attaches and personality carry `config.uploader`, equal to the given configuration |
| `Tools.WithAlignmentTunes` | src/get-tools.ts:144-156 | keeps the enabled names; when the tune is enabled, each present paragraph, header and quote entry gains `tunes = ['alignmentTune']`; every other entry is unchanged |
| `Tools.GetTools` | src/get-tools.ts:33-159 | a name is enabled iff it is selected, in the table, and not a file tool without file access; each entry is the table's, with `tunes = ['alignmentTune']` exactly on paragraph, header and quote when the tune is enabled |

## Left out

- The read-only block patches (`plugin-*-patch.js`, `custom-blocks/*`), `plugin-testimonial.js`, `index.ts`, `index.js`, `translations.ts` and the build configuration: DOM rendering on third-party base classes, option schemas and string tables. The patches compute URLs with `addTokenToURL`: the large-contain preview is `ImageStore.ImagePreviewUrl`, and the attachment download link (src/custom-plugins/plugin-attaches-patch.js:39-41) is plain `DirectusToken.AddTokenToURL`. The personality card's background, `addTokenToURL(image) + "&key=system-medium-cover"` (src/custom-plugins/plugin-personality-patch.js:23-25), is not modelled.
- The 500 ms `setTimeout` and `onBrowseSelect` DOM injection in both `uploadByFile`s: timing and DOM. `FileUploader.DeferredInjection` models the decision it takes. The same step in src/editorjs-uploader.js:17-30 swallows a failure without logging, and is not modelled separately.
- The `await getRokkaHash(...)` network call: a function parameter giving how the lookup settles (`None` for a rejection, or for a missing `getRokkaHash`), answered at once. When the hash must be fetched, the code closes the drawer before the callbacks fire. The model does not order store changes against an uploader's trace.
- Vue `ref` reactivity and axios internals. `ref`s are plain fields. The axios defaults are two optional header strings, held by each consumer as a fixed value, so a token change during a session is not modelled. A non-string `Authorization` value is not modelled either.
- Which host object backs each uploader's `config.uploader`. The model wires the `.ts` uploader to the image drawer and the `custom-plugins` `.js` uploader to the file-handler store. It models `picker` as a log of the callbacks handed to it. How the host later calls a picker callback is outside the model.
- `Object.entries` puts integer-like keys first, and `${value}` stringifies values. The model takes entries in the given order with values already as strings.
- JavaScript's `in` also finds names inherited from `Object.prototype` (such as `toString`). `Tools.GetTools` looks up only the table's own keys.
- A `null` `filename_download`, which makes `split` throw, is not modelled.
- FileUploader.HandlerEvents: the `.js` uploader reads its message from `config.t.no_file_selected` (src/custom-plugins/editorjs-uploader.js:57), the tool config's top level. The configuration that `getTools` builds keeps `t` inside `config.uploader` instead (src/get-tools.ts:30, 119-130). The model takes the message as given. When `config.t` is missing, or `filename_download` is null, the closure throws and fires no callback. The throw also leaves `handleFile` (src/use-filehandler.ts:23-28) before `unsetFileHandler()`, so the handler stays pending and a later `handleFile` calls it again. The one-outcome and emptied-slot promises of `FileUploader.HandlerEvents` and `FileUploader.HandleFile` hold only when the message is present and the file name is not null.
- Tools.GetTools: the result is a `map`, so it does not keep the order in which the code inserts the selected tools (selection order, src/get-tools.ts:136-141), which is the order of the editor's toolbox. Only which tools are enabled and their settings are modelled.
- FileUploader.Uploader.UploadSelectedFile: `setCurrentPreview` is optional in `UploaderConfig` (src/get-tools.ts:28). When it is missing and the current file is truthy, the code throws at src/custom-plugins/editorjs-uploader.js:47 before registering a handler. The model assumes the host provides it and always registers.
- The non-exported `unsetFileHandler` of the image drawer and `unsetSelectionSaveHandler` of the relation selector are ordinary methods of their classes; only their own class calls them.
- ImageUploader.Uploader.RunHandler: the `onPreview` callback captured by each registration is logged in the uploader's single trace, so the model does not distinguish which call's `onPreview` received it.
- FileUploader.Uploader.RunHandler: the same as for the `.ts` uploader; `onPreview` calls go to the uploader's single trace.
- PickerUploader.Uploader.RunCallback: the same; `onPreview` calls go to the uploader's single trace.
- ImageUploader.Uploader.UploadSelectedFile: the drawer's own state does not record that it was opened before the handler was registered. Only the uploader's trace shows that order.

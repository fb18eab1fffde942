/**
 * What the uploaders hand back to their block tools: the success and error
 * payloads, and the trace of calls an uploader makes on its host and its block.
 */
module Payloads {
  import opened Optional
  import opened Strings
  import ImageStore

  /** The `file` object of a success payload, one shape per uploader variant. */
  datatype FileData =
    | ImageFile(image: ImageStore.EditorJsImage)
    | AttachmentFile(width: int, height: int, size: int, name: string, title: string, extension: string,
                     fileId: string, fileURL: string, url: string)
    | PickedFile(size: int, name: string, title: string, extension: string,
                 fileId: string, fileURL: string, url: string)
    | LinkedFile(url: string)

  /** `{success: 1, file}` or `{success: 0, message}`. */
  datatype Response = Success(file: FileData) | Failure(message: string) {
    /** The payload's `success` field. */
    function SuccessFlag(): (flag: int)
      ensures flag == 1 <==> Success?
      ensures flag == 0 <==> Failure?
    {
      if Success? then 1 else 0
    }
  }

  /** One call an uploader makes, in the order it makes them. */
  datatype Event =
    | OpenDrawer                            // config.uploader.openImageDrawer()
    | RegisterHandler                       // config.uploader.setFileHandler(cb) or picker(cb)
    | CurrentPreview(url: string)           // config.uploader.setCurrentPreview(url)
    | Preview(previewUrl: Option<string>)   // onPreview(url), or onPreview() with no argument
    | Upload(response: Response)            // this.onUpload(response)
    | Error(response: Response)             // this.onError(response)
    | DispatchChange                        // this.dispatchChange()

  /** A call that settles a request: the block's success or error callback. */
  predicate IsOutcome(e: Event)
  {
    e.Upload? || e.Error?
  }

  /** How many success or error callbacks a trace holds. */
  function Outcomes(events: seq<Event>): nat
  {
    if events == [] then 0
    else Outcomes(events[..|events| - 1]) + (if IsOutcome(events[|events| - 1]) then 1 else 0)
  }

  /** Outcomes of consecutive stretches of a trace add up. */
  lemma {:induction false} OutcomesAppend(a: seq<Event>, b: seq<Event>)
    ensures Outcomes(a + b) == Outcomes(a) + Outcomes(b)
    decreases |b|
  {
    if b != [] {
      assert (a + b)[..|a + b| - 1] == a + b[..|b| - 1];
      OutcomesAppend(a, b[..|b| - 1]);
    } else {
      assert a + b == a;
    }
  }

  /** A one-call trace holds an outcome exactly when its call is one. */
  lemma OutcomesSingleton(e: Event)
    ensures Outcomes([e]) == if IsOutcome(e) then 1 else 0
  {
    assert [e][..0] == [];
  }

  /**
   * `filename_download.split('.').pop()`: the text after the last dot, or the
   * whole name when it has none.
   */
  function Extension(name: string): (ext: string)
    ensures '.' !in ext
    ensures |ext| <= |name| && name[|name| - |ext|..] == ext
    ensures '.' in name ==> |ext| < |name| && name[|name| - |ext| - 1] == '.'
    ensures '.' !in name ==> ext == name
  {
    SplitLast(name, '.');
    Last(Split(name, '.'))
  }
}

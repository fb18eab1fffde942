/**
 * The generic file handler store (src/use-filehandler.ts): one slot for the
 * handler waiting for a file, overwritten on registration and cleared after use.
 */
module FileHandlerStore {
  import opened Optional

  /** One invocation of the registered handler with the event `handleFile` received. */
  datatype Call<H, E> = Call(handler: H, event: E)

  /**
   * `H` is the type of the registered closures and `E` that of the events they
   * receive; `calls` records every invocation, in order.
   */
  class FileHandler<H, E> {
    var fileHandler: Option<H>
    var calls: seq<Call<H, E>>

    constructor ()
      ensures fileHandler == None && calls == []
    {
      fileHandler := None;
      calls := [];
    }

    /** `unsetFileHandler`: drops the handler and touches nothing else. */
    method UnsetFileHandler()
      modifies this`fileHandler
      ensures fileHandler == None
    {
      fileHandler := None;
    }

    /** `setFileHandler`: the last registration wins. */
    method SetFileHandler(handler: H)
      modifies this`fileHandler
      ensures fileHandler == Some(handler)
    {
      fileHandler := Some(handler);
    }

    /**
     * `handleFile`: calls the handler, if one is set, once with the event, and
     * leaves the slot empty either way.
     */
    method HandleFile(event: E)
      modifies this
      ensures calls == old(calls) + (if old(fileHandler).Some? then [Call(old(fileHandler).value, event)] else [])
      ensures fileHandler == None
    {
      if fileHandler.Some? {
        calls := calls + [Call(fileHandler.value, event)];
      }
      UnsetFileHandler();
    }
  }
}

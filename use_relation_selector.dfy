/**
 * The relation selector (src/use-relation-selector.ts): the record picker's
 * open flag, the ids it shows preselected, and the single pending save handler.
 */
module RelationSelector {
  import opened Optional

  /** One invocation of the save handler with the ids the user confirmed. */
  datatype Save<H> = Save(handler: H, selection: seq<int>)

  /** `H` is the type of the registered save handlers; `saves` records every invocation, in order. */
  class RelationSelector<H> {
    var open: bool
    var currentSelection: Option<seq<int>>
    var selectionSaveHandler: Option<H>
    var saves: seq<Save<H>>

    constructor ()
      ensures !open && currentSelection == None && selectionSaveHandler == None && saves == []
    {
      open := false;
      currentSelection := None;
      selectionSaveHandler := None;
      saves := [];
    }

    /**
     * `setCurrentSelection(relation)`: `relation || null`. An array is truthy even
     * when empty, so only a missing value (`null`/`undefined`) clears the selection.
     */
    method SetCurrentSelection(relation: Option<seq<int>>)
      modifies this`currentSelection
      ensures currentSelection == relation
    {
      currentSelection := relation;
    }

    /** `toggleOpen` */
    method ToggleOpen()
      modifies this`open
      ensures open == !old(open)
    {
      open := !open;
    }

    /**
     * `unsetSelectionSaveHandler`: drops the handler and the preselection. The
     * store does not return it; only `HandleSelectionSave` calls it.
     */
    method UnsetSelectionSaveHandler()
      modifies this`selectionSaveHandler, this`currentSelection
      ensures selectionSaveHandler == None && currentSelection == None
    {
      selectionSaveHandler := None;
      currentSelection := None;
    }

    /** `setSelectionSaveHandler`: the last registration wins. */
    method SetSelectionSaveHandler(handler: H)
      modifies this`selectionSaveHandler
      ensures selectionSaveHandler == Some(handler)
    {
      selectionSaveHandler := Some(handler);
    }

    /**
     * `handleSelectionSave`: calls the handler, if any, once with the selection,
     * then clears handler and preselection; the open flag is left alone.
     */
    method HandleSelectionSave(selection: seq<int>)
      modifies this`saves, this`selectionSaveHandler, this`currentSelection
      ensures saves == old(saves)
        + (if old(selectionSaveHandler).Some? then [Save(old(selectionSaveHandler).value, selection)] else [])
      ensures selectionSaveHandler == None && currentSelection == None
    {
      if selectionSaveHandler.Some? {
        saves := saves + [Save(selectionSaveHandler.value, selection)];
      }
      UnsetSelectionSaveHandler();
    }
  }
}

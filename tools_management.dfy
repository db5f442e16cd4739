/**
 * The managed tool list of the admin area. An availability switch or a
 * confirmed deletion is sent to the server and, once the server accepted it,
 * the list is reloaded; the reloaded list is modelled as the server's list
 * with that change applied.
 */
module ToolsManagement {
  import opened Optional
  import opened Api
  import opened AdminTools

  class ToolsPage {
    var tools: seq<Tool>
    var search: string
    var selectedTool: Option<Tool>
    var isEditDialogOpen: bool
    var isDeleteDialogOpen: bool

    constructor (tools: seq<Tool>)
      ensures this.tools == tools && search == "" && selectedTool == None
      ensures !isEditDialogOpen && !isDeleteDialogOpen
    {
      this.tools, search, selectedTool := tools, "", None;
      isEditDialogOpen, isDeleteDialogOpen := false, false;
    }

    /** The rows of the table. */
    function Listed(): seq<Tool>
      reads this
    {
      FilteredTools(tools, search)
    }

    /** `handleEditTool`. */
    method HandleEditTool(t: Tool)
      modifies this`selectedTool, this`isEditDialogOpen
      ensures selectedTool == Some(t) && isEditDialogOpen
    {
      selectedTool, isEditDialogOpen := Some(t), true;
    }

    /** `handleDeleteClick`. */
    method HandleDeleteClick(t: Tool)
      modifies this`selectedTool, this`isDeleteDialogOpen
      ensures selectedTool == Some(t) && isDeleteDialogOpen
    {
      selectedTool, isDeleteDialogOpen := Some(t), true;
    }

    /**
     * `handleConfirmDelete`: returns the id sent for deletion, None when no
     * tool is selected, in which case nothing changes. `succeeded` says
     * whether the server deleted it; only then does the dialog close and the
     * list lose that tool.
     */
    method HandleConfirmDelete(succeeded: bool) returns (sent: Option<int>)
      modifies this`tools, this`isDeleteDialogOpen
      ensures sent.None? <==> selectedTool.None?
      ensures sent.Some? ==> sent.value == selectedTool.value.id
      ensures sent.Some? && succeeded ==> !isDeleteDialogOpen && tools == RemoveTool(old(tools), sent.value)
      ensures sent.None? || !succeeded ==> isDeleteDialogOpen == old(isDeleteDialogOpen) && tools == old(tools)
    {
      if selectedTool.None? {
        return None;
      }
      sent := Some(selectedTool.value.id);
      if succeeded {
        isDeleteDialogOpen := false;
        tools := RemoveTool(tools, sent.value);
      }
    }

    /**
     * `handleToggleAvailability(id, available)`: returns the (id, value)
     * pair sent to the server, which always asks for the opposite of the
     * availability shown.
     */
    method HandleToggleAvailability(id: int, available: bool, succeeded: bool) returns (sent: (int, bool))
      modifies this`tools
      ensures sent == (id, !available)
      ensures succeeded ==> tools == SetAvailability(old(tools), id, !available)
      ensures !succeeded ==> tools == old(tools)
    {
      sent := (id, !available);
      if succeeded {
        tools := SetAvailability(tools, id, !available);
      }
    }
  }

  /**
   * Flipping the switch of a listed tool flips exactly that tool's
   * availability and keeps every other tool as it was.
   */
  lemma SwitchFlipsOneTool(tools: seq<Tool>, i: int)
    requires 0 <= i < |tools|
    requires forall j :: 0 <= j < |tools| && j != i ==> tools[j].id != tools[i].id
    ensures var r := SetAvailability(tools, tools[i].id, !tools[i].available);
      |r| == |tools| && r[i].available == !tools[i].available && r[i].id == tools[i].id
      && forall j :: 0 <= j < |tools| && j != i ==> r[j] == tools[j]
  {
  }
}

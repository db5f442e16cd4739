/**
 * The server-backed product table of the admin area: a search box that both
 * filters the loaded tools and reloads them with the search, an availability
 * switch and a delete dialog, each followed by a reload once the server
 * accepted the change.
 */
module ProductsTableWithApi {
  import opened Optional
  import opened Api
  import opened UseApi
  import opened AdminTools

  class ProductsPage {
    var search: string
    var deleteDialogOpen: bool
    var selectedTool: Option<Tool>
    const tools: ApiList<Tool>
    const deleteCall: ApiHook<()>
    const toggleCall: ApiHook<Tool>

    ghost predicate Valid()
      reads this, tools, tools.api, deleteCall, toggleCall
    {
      tools.Valid() && deleteCall.Valid() && toggleCall.Valid()
    }

    constructor ()
      ensures Valid() && fresh(tools) && fresh(tools.api) && fresh(deleteCall) && fresh(toggleCall)
      ensures search == "" && !deleteDialogOpen && selectedTool == None
      ensures tools.items == [] && tools.params == map[]
    {
      search, deleteDialogOpen, selectedTool := "", false, None;
      tools := new ApiList(map[]);
      deleteCall := new ApiHook();
      toggleCall := new ApiHook();
    }

    /** The rows of the table. */
    function Listed(): seq<Tool>
      reads this, tools
    {
      FilteredTools(tools.items, search)
    }

    /** `handleSearch`: reload page 1 of size 10 with the typed search. */
    method HandleSearch(outcome: Completion<Response<Tool>>)
      requires Valid()
      modifies tools, tools.api
      ensures Valid()
      ensures tools.params == CallParams(old(tools.params), ReloadCall("search", search))
      ensures outcome.Return? ==> (tools.items, tools.totalItems)
                                  == ApplyResponse(old(tools.items), old(tools.totalItems), outcome.value)
      ensures outcome.Throw? ==> tools.items == old(tools.items)
    {
      var call := ReloadCall("search", search);
      var _ := tools.LoadItems(Some(call.page), Some(call.size), call.additional, outcome);
    }

    /**
     * `handleToggleAvailability(tool)`: returns the (id, value) pair sent,
     * the opposite of the tool's availability; a successful answer reloads.
     */
    method HandleToggleAvailability(tool: Tool, update: Completion<Tool>, reload: Completion<Response<Tool>>)
      returns (sent: (int, bool))
      requires Valid()
      modifies toggleCall, tools, tools.api
      ensures Valid()
      ensures sent == (tool.id, !tool.available)
      ensures toggleCall.state == Settled(update)
      ensures update.Return? ==>
                tools.params == LoadParams(old(tools.params), map[], old(tools.currentPage), old(tools.pageSize))
      ensures update.Throw? ==> tools.params == old(tools.params) && tools.items == old(tools.items)
      ensures update.Throw? ==> tools.api.state == old(tools.api.state)
      ensures update.Return? ==> tools.api.state == Settled(reload)
      ensures update.Return? && reload.Return? ==>
                (tools.items, tools.totalItems) == ApplyResponse(old(tools.items), old(tools.totalItems), reload.value)
      ensures update.Return? && reload.Throw? ==> tools.items == old(tools.items)
      ensures tools.currentPage == old(tools.currentPage) && tools.pageSize == old(tools.pageSize)
    {
      sent := (tool.id, !tool.available);
      var r := toggleCall.Execute(update);
      if r.Return? {
        var _ := tools.Refresh(reload);
      }
    }

    /**
     * `confirmDelete`: returns the id sent for deletion, None when no tool
     * is selected, in which case nothing changes. Only a successful answer
     * reloads and closes the dialog.
     */
    method ConfirmDelete(delete: Completion<()>, reload: Completion<Response<Tool>>)
      returns (sent: Option<int>)
      requires Valid()
      modifies this`deleteDialogOpen, deleteCall, tools, tools.api
      ensures Valid()
      ensures sent.None? <==> selectedTool.None?
      ensures sent.Some? ==> sent.value == selectedTool.value.id
      ensures sent.None? ==> deleteDialogOpen == old(deleteDialogOpen) && deleteCall.state == old(deleteCall.state)
      ensures sent.None? ==> tools.params == old(tools.params) && tools.items == old(tools.items)
      ensures sent.Some? ==> deleteCall.state == Settled(delete)
      ensures sent.Some? && delete.Return? ==> !deleteDialogOpen
      ensures sent.Some? && delete.Return? ==>
                tools.params == LoadParams(old(tools.params), map[], old(tools.currentPage), old(tools.pageSize))
      ensures delete.Throw? ==> deleteDialogOpen == old(deleteDialogOpen)
      ensures delete.Throw? ==> tools.params == old(tools.params) && tools.items == old(tools.items)
      ensures sent.None? ==> tools.totalItems == old(tools.totalItems)
      ensures sent.None? || delete.Throw? ==> tools.api.state == old(tools.api.state)
      ensures sent.Some? && delete.Return? ==> tools.api.state == Settled(reload)
      ensures sent.Some? && delete.Return? && reload.Return? ==>
                (tools.items, tools.totalItems) == ApplyResponse(old(tools.items), old(tools.totalItems), reload.value)
      ensures sent.Some? && delete.Return? && reload.Throw? ==> tools.items == old(tools.items)
      ensures tools.currentPage == old(tools.currentPage) && tools.pageSize == old(tools.pageSize)
    {
      if selectedTool.None? {
        return None;
      }
      sent := Some(selectedTool.value.id);
      var r := deleteCall.Execute(delete);
      if r.Return? {
        var _ := tools.Refresh(reload);
        deleteDialogOpen := false;
      }
    }
  }
}

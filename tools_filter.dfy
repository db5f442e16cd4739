/**
 * The tool search shared by the three admin tool screens (the managed tool
 * list, the server-backed product table and the mock product table), and the
 * two changes an administrator makes to the tool list: switching a tool's
 * availability and deleting a tool.
 */
module AdminTools {
  import opened Api
  import opened Text
  import opened Seqs

  /** The search matches a tool's name, category or description, ignoring case. */
  predicate SearchMatches(t: Tool, search: string) {
    Matches(t.name, search) || Matches(t.category, search) || Matches(t.description, search)
  }

  /** `filteredTools` / `filteredProducts`. */
  function FilteredTools(tools: seq<Tool>, search: string): seq<Tool> {
    Filter(tools, t => SearchMatches(t, search))
  }

  /** A tool is listed exactly when it is in the list and its name, category or description matches. */
  lemma FilteredToolsMembers(tools: seq<Tool>, search: string, t: Tool)
    ensures t in FilteredTools(tools, search) <==>
      t in tools && (Matches(t.name, search) || Matches(t.category, search) || Matches(t.description, search))
  {
    FilterMembership(tools, t => SearchMatches(t, search), t);
  }

  /** The listed tools keep their order. */
  lemma FilteredToolsIsSubseq(tools: seq<Tool>, search: string)
    ensures IsSubseq(FilteredTools(tools, search), tools)
  {
    FilterIsSubseq(tools, t => SearchMatches(t, search));
  }

  /** The empty search lists every tool, in order: "" occurs in every string. */
  lemma EmptySearchListsAll(tools: seq<Tool>)
    ensures FilteredTools(tools, "") == tools
  {
    forall i | 0 <= i < |tools|
      ensures SearchMatches(tools[i], "")
    {
      MatchesEmpty(tools[i].name);
    }
    FilterKeepsAll(tools, t => SearchMatches(t, ""));
  }

  /** Two searches that differ only in letter case list the same tools. */
  lemma SearchIgnoresCase(tools: seq<Tool>, a: string, b: string)
    requires Lower(a) == Lower(b)
    ensures FilteredTools(tools, a) == FilteredTools(tools, b)
  {
    FilterEquivalent(tools, t => SearchMatches(t, a), t => SearchMatches(t, b));
  }

  /** The message shown under an empty table: a failed search, or an empty catalog. */
  function EmptyStateMessage(search: string): string {
    if search != "" then "Инструменты не найдены по вашему запросу" else "Инструменты отсутствуют в каталоге"
  }

  /**
   * The message under an empty table tells the truth: the "empty catalog"
   * message is only ever shown over an empty tool list, and a non-empty
   * catalog that lists nothing always blames the search.
   */
  lemma EmptyCatalogMessageIsTruthful(tools: seq<Tool>, search: string)
    requires FilteredTools(tools, search) == []
    ensures EmptyStateMessage(search) == "Инструменты отсутствуют в каталоге" ==> tools == []
    ensures tools != [] ==> search != "" && EmptyStateMessage(search) == "Инструменты не найдены по вашему запросу"
  {
    EmptySearchListsAll(tools);
  }

  /** The list after the server switched the availability of the tool(s) with this id to `v`. */
  function SetAvailability(tools: seq<Tool>, id: int, v: bool): (r: seq<Tool>)
    ensures |r| == |tools|
    ensures forall i :: 0 <= i < |tools| && tools[i].id == id ==> r[i] == tools[i].(available := v)
    ensures forall i :: 0 <= i < |tools| && tools[i].id != id ==> r[i] == tools[i]
  {
    if tools == [] then []
    else [if tools[0].id == id then tools[0].(available := v) else tools[0]] + SetAvailability(tools[1..], id, v)
  }

  /** Switching a tool twice restores the list. */
  lemma {:induction false} ToggleTwiceRestores(tools: seq<Tool>, id: int, available: bool)
    requires forall i :: 0 <= i < |tools| && tools[i].id == id ==> tools[i].available == available
    ensures SetAvailability(SetAvailability(tools, id, !available), id, available) == tools
  {
    var once := SetAvailability(tools, id, !available);
    var twice := SetAvailability(once, id, available);
    assert |twice| == |tools|;
    forall i | 0 <= i < |tools|
      ensures twice[i] == tools[i]
    {
      assert once[i].id == tools[i].id;
    }
  }

  /** The list after the server deleted the tool(s) with this id. */
  function RemoveTool(tools: seq<Tool>, id: int): seq<Tool> {
    Filter(tools, (t: Tool) => t.id != id)
  }

  /** Deleting removes exactly the tools with that id and keeps the rest in order. */
  lemma RemoveToolMembers(tools: seq<Tool>, id: int, t: Tool)
    ensures t in RemoveTool(tools, id) <==> t in tools && t.id != id
    ensures IsSubseq(RemoveTool(tools, id), tools)
  {
    FilterMembership(tools, (t: Tool) => t.id != id, t);
    FilterIsSubseq(tools, (t: Tool) => t.id != id);
  }
}

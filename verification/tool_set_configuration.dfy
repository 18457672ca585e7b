/**
 * The tool-set editor (src/pages/ToolSetConfiguration.tsx): the tools of one
 * package, each of which can be switched on or off, and the argument
 * descriptions of the selected tool, which can be rewritten. The page keeps
 * two copies that the handlers update separately: the tool list and the
 * selected tool.
 */
module ToolSetConfiguration {
  import opened Common
  import ApisAndTools

  datatype Arg = Arg(name: string, argType: string, description: string)

  datatype Tool = Tool(
    id: string, name: string, description: string, enabled: bool,
    args: seq<Arg>, output: string)

  datatype ToolSet = ToolSet(name: string, tools: seq<Tool>)

  const BoeTools: ToolSet := ToolSet("Boe Tools", [
    Tool("get_users", "get_users", "Retrieves a list of all users.", true, [
      Arg("page", "number", "The page number for pagination."),
      Arg("limit", "number", "The number of users to return per page.")
    ], "A list of user objects."),
    Tool("create_order", "create_order", "Creates a new order for a product.", true, [
      Arg("productId", "string", "The unique identifier for the product."),
      Arg("quantity", "number", "The number of units to order.")
    ], "The newly created order object.")
  ])

  const SearchInternetTool: ToolSet := ToolSet("Search Internet Tool", [
    Tool("search_web", "search_web", "Performs a web search.", false, [
      Arg("query", "string", "The search query.")
    ], "A list of search results with URLs and snippets.")
  ])

  /** `mockToolSets`, keyed by the slug used in `/tools/<slug>`. */
  const MockToolSets: map<string, ToolSet> := map[
    "boe-tools" := BoeTools,
    "search-internet-tool" := SearchInternetTool
  ]

  /** The tool set named by the route, or `boe-tools` when the name is
      missing or unknown. */
  function LookupToolSet(toolSetName: Option<string>): (ts: ToolSet)
    ensures toolSetName.Some? && toolSetName.value in MockToolSets ==> ts == MockToolSets[toolSetName.value]
    ensures !(toolSetName.Some? && toolSetName.value in MockToolSets) ==> ts == BoeTools
  {
    if toolSetName.Some? && toolSetName.value in MockToolSets then MockToolSets[toolSetName.value]
    else MockToolSets["boe-tools"]
  }

  /** The links of the two tool-set cards on the integrations page,
      `/tools/<slug of the name>`, name keys of `mockToolSets`: each card
      opens its own set, not the fallback. */
  lemma ToolSetLinksOpenTheirSet(boe: string, search: string)
    requires boe == "Boe tools"
    requires search == "Search internet tool"
    ensures ApisAndTools.Slugify(boe) in MockToolSets && ApisAndTools.Slugify(search) in MockToolSets
    ensures LookupToolSet(Some(ApisAndTools.Slugify(boe))) == BoeTools
    ensures LookupToolSet(Some(ApisAndTools.Slugify(search))) == SearchInternetTool
  {
    ApisAndTools.BoeToolsSlug(boe);
    ApisAndTools.SearchInternetToolSlug(search);
  }

  /** The ids of a list of tools. */
  function Ids(tools: seq<Tool>): (ids: seq<string>)
    ensures |ids| == |tools| && forall i :: 0 <= i < |tools| ==> ids[i] == tools[i].id
  {
    seq(|tools|, i requires 0 <= i < |tools| => tools[i].id)
  }

  /** Both tool sets have at least one tool, and tool ids are distinct
      within each set, as are argument names within each tool. */
  lemma MockToolSetsWellFormed()
    ensures forall k :: k in MockToolSets ==> |MockToolSets[k].tools| >= 1 && NoDuplicates(Ids(MockToolSets[k].tools))
    ensures forall k, i :: k in MockToolSets && 0 <= i < |MockToolSets[k].tools| ==>
              |MockToolSets[k].tools[i].args| <= 1 ||
              MockToolSets[k].tools[i].args[0].name != MockToolSets[k].tools[i].args[1].name
  {
  }

  /** The tool list after the switch of `toolId` is flipped: that tool's
      `enabled` is negated, everything else stays as it was. */
  function Toggled(tools: seq<Tool>, toolId: string): (r: seq<Tool>)
    ensures |r| == |tools|
    ensures forall i :: 0 <= i < |tools| ==> r[i].id == tools[i].id && r[i].args == tools[i].args
    ensures forall i :: 0 <= i < |tools| && tools[i].id == toolId ==> r[i] == tools[i].(enabled := !tools[i].enabled)
    ensures forall i :: 0 <= i < |tools| && tools[i].id != toolId ==> r[i] == tools[i]
  {
    seq(|tools|, i requires 0 <= i < |tools| =>
      if tools[i].id == toolId then tools[i].(enabled := !tools[i].enabled) else tools[i])
  }

  /** Flipping the same switch twice gives the original list back. */
  lemma ToggleTwiceRestores(tools: seq<Tool>, toolId: string)
    ensures Toggled(Toggled(tools, toolId), toolId) == tools
  {
    var once := Toggled(tools, toolId);
    var twice := Toggled(once, toolId);
    forall i | 0 <= i < |tools|
      ensures twice[i] == tools[i]
    {
      if tools[i].id == toolId {
        assert once[i].id == toolId;
      }
    }
  }

  /** The arguments after the description of `argName` is set to `value`:
      every argument of that name gets it, the others stay as they were. */
  function WithArgDescription(args: seq<Arg>, argName: string, value: string): (r: seq<Arg>)
    ensures |r| == |args|
    ensures forall i :: 0 <= i < |args| ==> r[i].name == args[i].name && r[i].argType == args[i].argType
    ensures forall i :: 0 <= i < |args| && args[i].name == argName ==> r[i].description == value
    ensures forall i :: 0 <= i < |args| && args[i].name != argName ==> r[i] == args[i]
  {
    seq(|args|, i requires 0 <= i < |args| =>
      if args[i].name == argName then args[i].(description := value) else args[i])
  }

  /** The tool list after the description edit: only the arguments of the
      tools with id `toolId` change. */
  function ArgEdited(tools: seq<Tool>, toolId: string, argName: string, value: string): (r: seq<Tool>)
    ensures |r| == |tools|
    ensures forall i :: 0 <= i < |tools| && tools[i].id == toolId ==>
              r[i] == tools[i].(args := WithArgDescription(tools[i].args, argName, value))
    ensures forall i :: 0 <= i < |tools| && tools[i].id != toolId ==> r[i] == tools[i]
  {
    seq(|tools|, i requires 0 <= i < |tools| =>
      if tools[i].id == toolId then tools[i].(args := WithArgDescription(tools[i].args, argName, value)) else tools[i])
  }

  /** Editing the selected tool's argument leaves the selected copy and the
      tool's entry in the list with the same arguments, whenever they had the
      same arguments before. */
  lemma EditKeepsSelectedInStep(tools: seq<Tool>, selected: Tool, k: nat, argName: string, value: string)
    requires k < |tools| && tools[k].id == selected.id && tools[k].args == selected.args
    ensures ArgEdited(tools, selected.id, argName, value)[k].args == WithArgDescription(selected.args, argName, value)
    ensures forall a :: 0 <= a < |selected.args| && selected.args[a].name == argName ==>
              ArgEdited(tools, selected.id, argName, value)[k].args[a].description == value
  {
  }

  /** The page state. The tool set is fixed by the route; `tools` and
      `selectedTool` are the two state variables. */
  class ToolSetEditor {
    const toolSet: ToolSet
    var tools: seq<Tool>
    var selectedTool: Tool

    /** The handlers never add, drop or reorder tools: the ids stay those
        of the tool set. */
    predicate Valid()
      reads this
    {
      |tools| >= 1 && Ids(tools) == Ids(toolSet.tools)
    }

    /** Opening the page: the tool set of the route (or `boe-tools`), its
        tools, and the first of them selected. */
    constructor(toolSetName: Option<string>)
      ensures Valid()
      ensures toolSet == LookupToolSet(toolSetName)
      ensures tools == toolSet.tools && selectedTool == tools[0]
    {
      MockToolSetsWellFormed();
      toolSet := LookupToolSet(toolSetName);
      tools := LookupToolSet(toolSetName).tools;
      selectedTool := LookupToolSet(toolSetName).tools[0];
    }

    /** Clicking a tool's card selects a copy of it. */
    method SelectTool(i: nat)
      requires Valid() && i < |tools|
      modifies this
      ensures Valid()
      ensures selectedTool == tools[i] && tools == old(tools)
    {
      selectedTool := tools[i];
    }

    /** `handleToolToggle`: the tool list changes, the selected copy does not. */
    method HandleToolToggle(toolId: string)
      requires Valid()
      modifies this
      ensures Valid()
      ensures tools == Toggled(old(tools), toolId)
      ensures selectedTool == old(selectedTool)
    {
      tools := Toggled(tools, toolId);
      assert Ids(tools) == Ids(old(tools));
    }

    /** `handleArgDescChange`: the selected copy is edited by argument name
        whatever its id, and the tools with id `toolId` are edited in the list. */
    method HandleArgDescChange(toolId: string, argName: string, value: string)
      requires Valid()
      modifies this
      ensures Valid()
      ensures selectedTool == old(selectedTool).(args := WithArgDescription(old(selectedTool).args, argName, value))
      ensures tools == ArgEdited(old(tools), toolId, argName, value)
    {
      selectedTool := selectedTool.(args := WithArgDescription(selectedTool.args, argName, value));
      tools := ArgEdited(tools, toolId, argName, value);
      assert Ids(tools) == Ids(old(tools));
    }
  }
}

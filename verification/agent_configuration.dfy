/**
 * The agent workflow editor (src/pages/AgentConfiguration.tsx). The route's
 * agent name picks one of three graphs: Hermes, which can be edited, or the
 * read-only Boet and Maui graphs. On the Hermes graph a click on a node
 * selects it, and the side panel's edits are merged into the node's data.
 */
module AgentConfiguration {
  import opened Common
  import opened Flow
  import IntegrationDetail

  /** A node of the editable graph: its caption, icon, prompt, tools and the
      agent it calls, plus the rendered label built from the icon and caption. */
  function HermesNode(
    id: string, kind: Option<string>, caption: string, icon: string,
    prompt: string, tools: seq<string>, agent: Value, x: int, y: int): Node
  {
    Node(id, kind, map[
      "stringLabel" := Text(caption), "icon" := Element(icon, ""), "prompt" := Text(prompt),
      "tools" := Names(tools), "agent" := agent, "label" := Element(icon, caption)],
      Position(x, y))
  }

  /** A node of a read-only graph: only the rendered label. */
  function LabelNode(id: string, kind: Option<string>, icon: string, caption: string, x: int, y: int): Node
  {
    Node(id, kind, map["label" := Element(icon, caption)], Position(x, y))
  }

  const HermesNodes: seq<Node> := [
    HermesNode("1", Some("input"), "Inicio", "Play", "", [], Null, 250, 5),
    HermesNode("2", None, "Autenticación", "Lock",
      "Verificar las credenciales del usuario y asegurar que tiene los permisos necesarios.",
      ["check_auth_token"], Null, 250, 125),
    HermesNode("3", None, "Intención del Usuario", "MessageSquare",
      "Analizar la solicitud del usuario para determinar su objetivo principal. ¿Quiere comprar, preguntar o algo más?",
      ["natural_language_processing"], Null, 250, 250),
    HermesNode("4", None, "Ventas", "ShoppingCart",
      "Si la intención es de venta, guiar al usuario a través del proceso de compra y llamar al agente de ventas si es necesario.",
      ["create_order", "get_product_details"], Text("Boet"), 100, 375),
    HermesNode("5", Some("output"), "Fin", "Flag", "", [], Null, 250, 500)
  ]

  const HermesEdges: seq<Edge> := [
    Edge("e1-2", "1", "2"), Edge("e2-3", "2", "3"), Edge("e3-4", "3", "4"), Edge("e4-5", "4", "5")
  ]

  const BoetNodes: seq<Node> := [
    LabelNode("1", Some("input"), "Database", "Data Ingestion", 250, 5),
    LabelNode("2", None, "Cpu", "Data Processing", 250, 125),
    LabelNode("3", None, "Lightbulb", "Insight Generation", 250, 250),
    LabelNode("4", None, "BarChart", "Visualization", 100, 375),
    LabelNode("5", Some("output"), "FileText", "Reporting", 400, 375)
  ]

  const BoetEdges: seq<Edge> := [
    Edge("e1-2", "1", "2"), Edge("e2-3", "2", "3"), Edge("e3-4", "3", "4"), Edge("e3-5", "3", "5")
  ]

  const MauiNodes: seq<Node> := [
    LabelNode("1", Some("input"), "UserCheck", "User Intent", 400, 0),
    LabelNode("b1", None, "GitBranch", "Branch: Support", 150, 100),
    LabelNode("2", None, "Search", "Identify Issue", 150, 200),
    LabelNode("3", None, "FileText", "Search KB", 150, 300),
    LabelNode("4", None, "AlertTriangle", "Escalate", 150, 400),
    LabelNode("b2", None, "GitBranch", "Branch: Analysis", 400, 100),
    LabelNode("5", None, "Database", "Query Database", 400, 200),
    LabelNode("6", None, "BrainCircuit", "Aggregate Data", 400, 300),
    LabelNode("7", None, "BarChart", "Generate Report", 400, 400),
    LabelNode("b3", None, "GitBranch", "Branch: Engagement", 650, 100),
    LabelNode("8", None, "Users", "Analyze Behavior", 650, 200),
    LabelNode("9", None, "Lightbulb", "Find Opportunity", 650, 300),
    LabelNode("10", None, "Send", "Send Message", 650, 400),
    LabelNode("11", Some("output"), "Flag", "End", 400, 550)
  ]

  const MauiEdges: seq<Edge> := [
    Edge("e1-b1", "1", "b1"), Edge("e1-b2", "1", "b2"), Edge("e1-b3", "1", "b3"),
    Edge("eb1-2", "b1", "2"), Edge("e2-3", "2", "3"), Edge("e3-4", "3", "4"),
    Edge("eb2-5", "b2", "5"), Edge("e5-6", "5", "6"), Edge("e6-7", "6", "7"),
    Edge("eb3-8", "b3", "8"), Edge("e8-9", "8", "9"), Edge("e9-10", "9", "10"),
    Edge("e4-11", "4", "11"), Edge("e7-11", "7", "11"), Edge("e10-11", "10", "11")
  ]

  datatype GraphData = GraphData(nodes: seq<Node>, edges: seq<Edge>, editable: bool)

  /** Only the read-only agents are named. */
  predicate Editable(agentName: Option<string>)
  {
    agentName != Some("boet") && agentName != Some("maui")
  }

  /** `graphData`: `boet` and `maui` get their read-only graphs; any other
      name, a missing one included, gets the editable Hermes graph. */
  function GraphFor(agentName: Option<string>): (g: GraphData)
    ensures g.editable == Editable(agentName)
    ensures agentName == Some("boet") ==> g == GraphData(BoetNodes, BoetEdges, false)
    ensures agentName == Some("maui") ==> g == GraphData(MauiNodes, MauiEdges, false)
    ensures g.editable ==> g == GraphData(HermesNodes, HermesEdges, true)
  {
    if agentName == Some("boet") then GraphData(BoetNodes, BoetEdges, false)
    else if agentName == Some("maui") then GraphData(MauiNodes, MauiEdges, false)
    else GraphData(HermesNodes, HermesEdges, true)
  }

  const FiveIds: seq<string> := ["1", "2", "3", "4", "5"]

  lemma SmallGraphIds()
    ensures NodeIds(HermesNodes) == FiveIds && NodeIds(BoetNodes) == FiveIds
  {
  }

  lemma FiveIdsDistinct(ids: seq<string>)
    requires ids == FiveIds
    ensures NoDuplicates(ids)
  {
  }

  lemma SmallEdgesInside(ids: seq<string>)
    requires ids == FiveIds
    ensures forall e :: 0 <= e < |HermesEdges| ==> HermesEdges[e].source in ids && HermesEdges[e].target in ids
    ensures forall e :: 0 <= e < |BoetEdges| ==> BoetEdges[e].source in ids && BoetEdges[e].target in ids
  {
  }

  /** In the Hermes and Boet graphs node ids are distinct and every edge joins two nodes. */
  lemma SmallGraphsWellFormed()
    ensures UniqueIds(HermesNodes) && EdgesConnectNodes(HermesNodes, HermesEdges)
    ensures UniqueIds(BoetNodes) && EdgesConnectNodes(BoetNodes, BoetEdges)
  {
    SmallGraphIds();
    FiveIdsDistinct(NodeIds(HermesNodes));
    SmallEdgesInside(NodeIds(HermesNodes));
  }

  const MauiIds: seq<string> := ["1", "b1", "2", "3", "4", "b2", "5", "6", "7", "b3", "8", "9", "10", "11"]

  lemma MauiGraphIds()
    ensures NodeIds(MauiNodes) == MauiIds
  {
  }

  lemma MauiIdsDistinct(ids: seq<string>)
    requires ids == MauiIds
    ensures NoDuplicates(ids)
  {
  }

  lemma MauiEdgesInside(ids: seq<string>)
    requires ids == MauiIds
    ensures forall e :: 0 <= e < |MauiEdges| ==> MauiEdges[e].source in ids && MauiEdges[e].target in ids
  {
  }

  /** In the Maui graph node ids are distinct and every edge joins two nodes. */
  lemma MauiGraphWellFormed()
    ensures UniqueIds(MauiNodes) && EdgesConnectNodes(MauiNodes, MauiEdges)
  {
    MauiGraphIds();
    MauiIdsDistinct(NodeIds(MauiNodes));
    MauiEdgesInside(NodeIds(MauiNodes));
  }

  /** Every graph the page can show is well formed. */
  lemma GraphsWellFormed(agentName: Option<string>)
    ensures UniqueIds(GraphFor(agentName).nodes)
    ensures EdgesConnectNodes(GraphFor(agentName).nodes, GraphFor(agentName).edges)
  {
    SmallGraphsWellFormed();
    MauiGraphWellFormed();
  }

  /** The heading of the read-only view: the agent name with its first
      letter upper-cased, then `'s Workflow`. */
  function ReadOnlyTitle(agentName: string): (title: string)
    ensures |title| == |agentName| + 11
    ensures title[..|agentName|] == IntegrationDetail.Capitalize(agentName)
    ensures title[|agentName|..] == "'s Workflow"
  {
    IntegrationDetail.Capitalize(agentName) + "'s Workflow"
  }

  /** The node list after `newData` is merged into the data of the nodes
      with id `id`; every other node is kept as it was. */
  function MergedInto(nodes: seq<Node>, id: string, newData: Data): (r: seq<Node>)
    ensures |r| == |nodes|
    ensures forall i :: 0 <= i < |nodes| && nodes[i].id == id ==> r[i] == nodes[i].(data := Merge(nodes[i].data, newData))
    ensures forall i :: 0 <= i < |nodes| && nodes[i].id != id ==> r[i] == nodes[i]
  {
    seq(|nodes|, i requires 0 <= i < |nodes| =>
      if nodes[i].id == id then nodes[i].(data := Merge(nodes[i].data, newData)) else nodes[i])
  }

  /** Merging keeps the ids, so it keeps them distinct. */
  lemma MergedIntoKeepsIds(nodes: seq<Node>, id: string, newData: Data)
    ensures NodeIds(MergedInto(nodes, id, newData)) == NodeIds(nodes)
  {
  }

  /** The page state: the graph shown, and the node open in the side panel. */
  class AgentEditor {
    var agentName: Option<string>
    var nodes: seq<Node>
    var edges: seq<Edge>
    var selectedNode: Option<Node>

    /** Node ids stay distinct; a node is selected only on the editable
        graph, and the selected copy is always equal to its entry in the list. */
    predicate Valid()
      reads this
    {
      UniqueIds(nodes) &&
      (selectedNode.Some? ==> Editable(agentName) && selectedNode.value in nodes)
    }

    /** Opening the page: the agent's graph, nothing selected. */
    constructor(agentName: Option<string>)
      ensures Valid()
      ensures this.agentName == agentName
      ensures nodes == GraphFor(agentName).nodes && edges == GraphFor(agentName).edges
      ensures selectedNode == None
    {
      GraphsWellFormed(agentName);
      this.agentName := agentName;
      nodes := GraphFor(agentName).nodes;
      edges := GraphFor(agentName).edges;
      selectedNode := None;
    }

    /** Navigating to another agent: the effect reloads the graph and clears
        the selection. */
    method ChangeAgent(name: Option<string>)
      requires Valid()
      modifies this
      ensures Valid()
      ensures agentName == name
      ensures nodes == GraphFor(name).nodes && edges == GraphFor(name).edges
      ensures selectedNode == None
    {
      GraphsWellFormed(name);
      agentName := name;
      nodes := GraphFor(name).nodes;
      edges := GraphFor(name).edges;
      selectedNode := None;
    }

    /** `handleNodeClick`: selects the clicked node, only on the editable graph. */
    method HandleNodeClick(k: nat)
      requires Valid() && k < |nodes|
      modifies this
      ensures Valid()
      ensures agentName == old(agentName) && nodes == old(nodes) && edges == old(edges)
      ensures Editable(agentName) ==> selectedNode == Some(nodes[k])
      ensures !Editable(agentName) ==> selectedNode == old(selectedNode)
    {
      if Editable(agentName) {
        selectedNode := Some(nodes[k]);
      }
    }

    /** `handlePaneClick`, and the panel's close button: nothing selected. */
    method HandlePaneClick()
      requires Valid()
      modifies this
      ensures Valid()
      ensures selectedNode == None
      ensures agentName == old(agentName) && nodes == old(nodes) && edges == old(edges)
    {
      selectedNode := None;
    }

    /** `updateNodeData`: without a selection nothing happens; otherwise the
        new fields are merged into the selected node's entry and into the
        selected copy alike. */
    method UpdateNodeData(newData: Data)
      requires Valid()
      modifies this
      ensures Valid()
      ensures old(selectedNode).None? ==> nodes == old(nodes) && selectedNode == old(selectedNode)
      ensures old(selectedNode).Some? ==>
                nodes == MergedInto(old(nodes), old(selectedNode).value.id, newData) &&
                selectedNode == Some(old(selectedNode).value.(data := Merge(old(selectedNode).value.data, newData)))
      ensures agentName == old(agentName) && edges == old(edges)
    {
      if selectedNode.None? {
        return;
      }
      var sel := selectedNode.value;
      var k :| 0 <= k < |nodes| && nodes[k] == sel;
      MergedIntoKeepsIds(nodes, sel.id, newData);
      nodes := MergedInto(nodes, sel.id, newData);
      selectedNode := Some(sel.(data := Merge(sel.data, newData)));
      assert nodes[k] == selectedNode.value;
    }

    /** The prompt box: the selected node's data with `prompt` replaced. */
    method HandlePromptChange(value: string)
      requires Valid()
      modifies this
      ensures Valid()
      ensures old(selectedNode).None? ==> nodes == old(nodes) && selectedNode == old(selectedNode)
      ensures old(selectedNode).Some? ==>
                nodes == MergedInto(old(nodes), old(selectedNode).value.id, old(selectedNode).value.data["prompt" := Text(value)]) &&
                selectedNode == Some(old(selectedNode).value.(data := old(selectedNode).value.data["prompt" := Text(value)]))
      ensures agentName == old(agentName) && edges == old(edges)
    {
      if selectedNode.None? {
        return;
      }
      var newData := selectedNode.value.data["prompt" := Text(value)];
      assert Merge(selectedNode.value.data, newData) == newData;
      UpdateNodeData(newData);
    }
  }

  /** On a read-only graph nothing can be selected, so no edit reaches a node. */
  lemma ReadOnlyHasNoSelection(e: AgentEditor)
    requires e.Valid() && !Editable(e.agentName)
    ensures e.selectedNode == None
  {
  }
}

/**
 * The bot analytics view (src/components/features/analytics/BotAnalytics.tsx):
 * for the chosen agent, its workflow graph with each node's execution count
 * and conversion rate merged into the node's data, and the conversion
 * class that colours each node.
 */
module BotAnalytics {
  import opened Common
  import opened Flow

  datatype Stats = Stats(count: nat, conversion: nat)

  /** `analyticsData`: per agent, the stats of each node id. */
  const AnalyticsData: map<string, map<string, Stats>> := map[
    "hermes" := map["1" := Stats(1500, 95), "2" := Stats(1425, 92), "3" := Stats(1311, 85),
                    "4" := Stats(1114, 98), "5" := Stats(1092, 100)],
    "boet" := map["1" := Stats(850, 99), "2" := Stats(841, 90), "3" := Stats(757, 75),
                  "4" := Stats(568, 100), "5" := Stats(189, 100)],
    "maui" := map["1" := Stats(2200, 100), "b1" := Stats(750, 95), "2" := Stats(712, 80),
                  "3" := Stats(570, 30), "4" := Stats(171, 100), "b2" := Stats(1100, 98),
                  "5" := Stats(1078, 92), "6" := Stats(991, 88), "7" := Stats(872, 100),
                  "b3" := Stats(350, 60), "8" := Stats(210, 70), "9" := Stats(147, 45),
                  "10" := Stats(66, 100), "11" := Stats(1109, 100)]
  ]

  /** A node as the graph tables give it: an icon and a caption. */
  function RawNode(id: string, kind: Option<string>, icon: string, caption: string, x: int, y: int): Node
  {
    Node(id, kind, map["icon" := Element(icon, ""), "label" := Text(caption)], Position(x, y))
  }

  const HermesNodes: seq<Node> := [
    RawNode("1", Some("input"), "Play", "Inicio", 250, 5),
    RawNode("2", None, "Lock", "Autenticación", 250, 125),
    RawNode("3", None, "MessageSquare", "Intención del Usuario", 250, 250),
    RawNode("4", None, "ShoppingCart", "Ventas", 100, 375),
    RawNode("5", Some("output"), "Flag", "Fin", 250, 500)
  ]

  const HermesEdges: seq<Edge> := [
    Edge("e1-2", "1", "2"), Edge("e2-3", "2", "3"), Edge("e3-4", "3", "4"), Edge("e4-5", "4", "5")
  ]

  const BoetNodes: seq<Node> := [
    RawNode("1", Some("input"), "Database", "Data Ingestion", 250, 5),
    RawNode("2", None, "Cpu", "Data Processing", 250, 125),
    RawNode("3", None, "Lightbulb", "Insight Generation", 250, 250),
    RawNode("4", None, "BarChart", "Visualization", 100, 375),
    RawNode("5", Some("output"), "FileText", "Reporting", 400, 375)
  ]

  const BoetEdges: seq<Edge> := [
    Edge("e1-2", "1", "2"), Edge("e2-3", "2", "3"), Edge("e3-4", "3", "4"), Edge("e3-5", "3", "5")
  ]

  const MauiNodes: seq<Node> := [
    RawNode("1", Some("input"), "UserCheck", "User Intent", 400, 0),
    RawNode("b1", None, "GitBranch", "Branch: Support", 150, 100),
    RawNode("2", None, "Search", "Identify Issue", 150, 200),
    RawNode("3", None, "FileText", "Search KB", 150, 300),
    RawNode("4", None, "AlertTriangle", "Escalate", 150, 400),
    RawNode("b2", None, "GitBranch", "Branch: Analysis", 400, 100),
    RawNode("5", None, "Database", "Query Database", 400, 200),
    RawNode("6", None, "BrainCircuit", "Aggregate Data", 400, 300),
    RawNode("7", None, "BarChart", "Generate Report", 400, 400),
    RawNode("b3", None, "GitBranch", "Branch: Engagement", 650, 100),
    RawNode("8", None, "Users", "Analyze Behavior", 650, 200),
    RawNode("9", None, "Lightbulb", "Find Opportunity", 650, 300),
    RawNode("10", None, "Send", "Send Message", 650, 400),
    RawNode("11", Some("output"), "Flag", "End", 400, 550)
  ]

  const MauiEdges: seq<Edge> := [
    Edge("e1-b1", "1", "b1"), Edge("e1-b2", "1", "b2"), Edge("e1-b3", "1", "b3"),
    Edge("eb1-2", "b1", "2"), Edge("e2-3", "2", "3"), Edge("e3-4", "3", "4"), Edge("e4-11", "4", "11"),
    Edge("eb2-5", "b2", "5"), Edge("e5-6", "5", "6"), Edge("e6-7", "6", "7"), Edge("e7-11", "7", "11"),
    Edge("eb3-8", "b3", "8"), Edge("e8-9", "8", "9"), Edge("e9-10", "9", "10"), Edge("e10-11", "10", "11")
  ]

  datatype Graph = Graph(nodes: seq<Node>, edges: seq<Edge>)

  /** `graphMap`. */
  const GraphMap: map<string, Graph> := map[
    "hermes" := Graph(HermesNodes, HermesEdges),
    "boet" := Graph(BoetNodes, BoetEdges),
    "maui" := Graph(MauiNodes, MauiEdges)
  ]

  /** The agent shown when the view opens; the selector offers only the
      three agents of the tables. */
  const InitialAgent: string := "maui"

  /** A node's stats: its entry, or zero count and conversion when it has none. */
  function StatsFor(agentData: map<string, Stats>, id: string): (s: Stats)
    ensures id in agentData ==> s == agentData[id]
    ensures id !in agentData ==> s == Stats(0, 0)
  {
    if id in agentData then agentData[id] else Stats(0, 0)
  }

  /** The stats as data fields. */
  function StatsData(s: Stats): (d: Data)
    ensures d.Keys == {"count", "conversion"}
    ensures d["count"] == Number(s.count) && d["conversion"] == Number(s.conversion)
  {
    map["count" := Number(s.count), "conversion" := Number(s.conversion)]
  }

  /** One entry of `processedNodes`: the node with the analytics node type
      and its stats spread over its data. */
  function Processed(node: Node, agentData: map<string, Stats>): (r: Node)
    ensures r.id == node.id && r.position == node.position && r.kind == Some("analyticsNode")
    ensures r.data == Merge(node.data, StatsData(StatsFor(agentData, node.id)))
  {
    node.(kind := Some("analyticsNode"), data := Merge(node.data, StatsData(StatsFor(agentData, node.id))))
  }

  /** `rawNodes.map(…)`: every node processed, in order. */
  function ProcessNodes(nodes: seq<Node>, agentData: map<string, Stats>): (r: seq<Node>)
    ensures |r| == |nodes| && NodeIds(r) == NodeIds(nodes)
    ensures forall i :: 0 <= i < |nodes| ==> r[i] == Processed(nodes[i], agentData)
  {
    seq(|nodes|, i requires 0 <= i < |nodes| => Processed(nodes[i], agentData))
  }

  /** The stats replace any same-named data fields; every other field of the
      node is kept. */
  lemma StatsOverrideData(node: Node, agentData: map<string, Stats>)
    ensures Processed(node, agentData).data.Keys == node.data.Keys + {"count", "conversion"}
    ensures Processed(node, agentData).data["count"] == Number(StatsFor(agentData, node.id).count)
    ensures Processed(node, agentData).data["conversion"] == Number(StatsFor(agentData, node.id).conversion)
    ensures forall k :: k in node.data && k != "count" && k != "conversion" ==>
              Processed(node, agentData).data[k] == node.data[k]
  {
  }

  /** `processedNodes` for one of the three agents. */
  function ProcessedNodes(agent: string): (r: seq<Node>)
    requires agent in GraphMap && agent in AnalyticsData
    ensures |r| == |GraphMap[agent].nodes|
    ensures forall i :: 0 <= i < |r| ==> r[i] == Processed(GraphMap[agent].nodes[i], AnalyticsData[agent])
  {
    ProcessNodes(GraphMap[agent].nodes, AnalyticsData[agent])
  }

  datatype Conversion = High | Medium | Low

  /** The node's colour band: high from 80, low below 50, medium between. */
  function ConversionClass(conversion: int): (c: Conversion)
    ensures c == High <==> conversion >= 80
    ensures c == Low <==> conversion < 50
    ensures c == Medium <==> 50 <= conversion < 80
  {
    if conversion >= 80 then High else if conversion < 50 then Low else Medium
  }

  /** The trend arrow points up exactly for the high band. */
  function TrendUp(conversion: int): (up: bool)
    ensures up <==> ConversionClass(conversion) == High
  {
    conversion >= 80
  }

  /** The five-node graphs use ids 1 to 5, which are distinct; every edge
      joins two of them. */
  const FiveIds: seq<string> := ["1", "2", "3", "4", "5"]

  lemma SmallGraphIds()
    ensures NodeIds(HermesNodes) == FiveIds && NodeIds(BoetNodes) == FiveIds
  {
  }

  lemma FiveIdsCovered(ids: seq<string>)
    requires ids == FiveIds
    ensures NoDuplicates(ids)
    ensures forall i :: 0 <= i < |ids| ==> ids[i] in AnalyticsData["hermes"] && ids[i] in AnalyticsData["boet"]
  {
  }

  lemma SmallEdgesInside(ids: seq<string>)
    requires ids == FiveIds
    ensures forall e :: 0 <= e < |HermesEdges| ==> HermesEdges[e].source in ids && HermesEdges[e].target in ids
    ensures forall e :: 0 <= e < |BoetEdges| ==> BoetEdges[e].source in ids && BoetEdges[e].target in ids
  {
  }

  const MauiIds: seq<string> := ["1", "b1", "2", "3", "4", "b2", "5", "6", "7", "b3", "8", "9", "10", "11"]

  lemma MauiGraphIds()
    ensures NodeIds(MauiNodes) == MauiIds
  {
  }

  lemma MauiIdsDistinct(ids: seq<string>)
    requires ids == MauiIds
    ensures NoDuplicates(ids)
  {
  }

  lemma MauiIdsCovered(ids: seq<string>)
    requires ids == MauiIds
    ensures forall i :: 0 <= i < |ids| ==> ids[i] in AnalyticsData["maui"]
  {
  }

  lemma MauiEdgesInside(ids: seq<string>)
    requires ids == MauiIds
    ensures forall e :: 0 <= e < |MauiEdges| ==> MauiEdges[e].source in ids && MauiEdges[e].target in ids
  {
  }

  /** The conditions below, for one graph and its stats. */
  predicate WellFormed(g: Graph, agentData: map<string, Stats>)
  {
    UniqueIds(g.nodes) && EdgesConnectNodes(g.nodes, g.edges) &&
    forall i :: 0 <= i < |g.nodes| ==> g.nodes[i].id in agentData
  }

  lemma HermesWellFormed(g: Graph)
    requires g == Graph(HermesNodes, HermesEdges)
    ensures WellFormed(g, AnalyticsData["hermes"])
  {
    SmallGraphIds();
    FiveIdsCovered(NodeIds(HermesNodes));
    SmallEdgesInside(NodeIds(HermesNodes));
  }

  lemma BoetWellFormed(g: Graph)
    requires g == Graph(BoetNodes, BoetEdges)
    ensures WellFormed(g, AnalyticsData["boet"])
  {
    SmallGraphIds();
    FiveIdsCovered(NodeIds(BoetNodes));
    SmallEdgesInside(NodeIds(BoetNodes));
  }

  lemma MauiWellFormed(g: Graph)
    requires g == Graph(MauiNodes, MauiEdges)
    ensures WellFormed(g, AnalyticsData["maui"])
  {
    MauiGraphIds();
    MauiIdsDistinct(NodeIds(MauiNodes));
    MauiIdsCovered(NodeIds(MauiNodes));
    MauiEdgesInside(NodeIds(MauiNodes));
  }

  /** For each agent of the tables: node ids are distinct, every edge joins
      two nodes, and every node has its own stats, so the zero default is
      never shown. */
  lemma GraphsWellFormed(agent: string)
    requires agent in GraphMap
    ensures agent in AnalyticsData
    ensures UniqueIds(GraphMap[agent].nodes)
    ensures EdgesConnectNodes(GraphMap[agent].nodes, GraphMap[agent].edges)
    ensures forall i :: 0 <= i < |GraphMap[agent].nodes| ==> GraphMap[agent].nodes[i].id in AnalyticsData[agent]
  {
    if agent == "hermes" {
      HermesWellFormed(GraphMap[agent]);
    } else if agent == "boet" {
      BoetWellFormed(GraphMap[agent]);
    } else {
      MauiWellFormed(GraphMap[agent]);
    }
  }

  /** The view opens on Maui's fourteen nodes. */
  lemma InitialView(agent: string)
    requires agent == InitialAgent
    ensures agent in GraphMap && agent in AnalyticsData
    ensures |ProcessedNodes(agent)| == 14
  {
  }
}

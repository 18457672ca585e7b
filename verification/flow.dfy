/**
 * The graph values the workflow views hand to the flow-chart component:
 * nodes with an id, an optional node type, a data object and a position, and
 * edges between node ids. A node's data object is a map from field names to
 * values; spreading one object over another (`{ ...a, ...b }`) is a
 * right-biased map union.
 */
module Flow {
  import opened Common

  /** The field values the graphs use. `Element` is a rendered icon, with the
      caption printed beside it (empty for a bare icon). */
  datatype Value =
    | Text(s: string)
    | Number(n: int)
    | Names(items: seq<string>)
    | Null
    | Element(icon: string, caption: string)

  type Data = map<string, Value>

  datatype Position = Position(x: int, y: int)

  datatype Node = Node(id: string, kind: Option<string>, data: Data, position: Position)

  datatype Edge = Edge(id: string, source: string, target: string)

  /** `{ ...a, ...b }`: every field of either; where both have a field, `b`'s value. */
  function Merge(a: Data, b: Data): (r: Data)
    ensures r.Keys == a.Keys + b.Keys
    ensures forall k :: k in b ==> r[k] == b[k]
    ensures forall k :: k in a && k !in b ==> r[k] == a[k]
  {
    a + b
  }

  /** The ids of a node list, in order. */
  function NodeIds(nodes: seq<Node>): (ids: seq<string>)
    ensures |ids| == |nodes| && forall i :: 0 <= i < |nodes| ==> ids[i] == nodes[i].id
  {
    seq(|nodes|, i requires 0 <= i < |nodes| => nodes[i].id)
  }

  /** Node ids identify nodes. */
  predicate UniqueIds(nodes: seq<Node>)
  {
    NoDuplicates(NodeIds(nodes))
  }

  /** Every edge starts and ends at a node of the list. */
  predicate EdgesConnectNodes(nodes: seq<Node>, edges: seq<Edge>)
  {
    forall e :: 0 <= e < |edges| ==> edges[e].source in NodeIds(nodes) && edges[e].target in NodeIds(nodes)
  }
}

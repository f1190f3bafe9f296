/** The diagram graph both halves of the conversion work on: class nodes and
    the relationship edges between them, as the editor stores them. */
module Diagram {
  import opened JsValues

  /** Canvas coordinates, taken as whole numbers. */
  datatype Position = Position(x: int, y: int)

  /** What a class box shows: its name (missing when the imported element had
      no `name`), and the already formatted attribute and method lines. */
  datatype NodeData = NodeData(className: Opt<string>, attributes: seq<string>, methods: seq<string>)

  /** A class node; `kind` is the renderer's node type. */
  datatype Node = Node(id: string, kind: string, position: Position, data: NodeData)

  /** What a relationship shows: multiplicities at both ends and its type
      ("Association", "Aggregation", "Composition" or any other text). */
  datatype EdgeData = EdgeData(startLabel: string, endLabel: string, relType: string)

  /** A relationship; endpoints are node ids, `kind` is the renderer's edge type. */
  datatype Edge = Edge(
    id: string,
    source: string,
    target: string,
    sourceHandle: Opt<string>,
    targetHandle: Opt<string>,
    kind: string,
    data: EdgeData)

  datatype Graph = Graph(nodes: seq<Node>, edges: seq<Edge>)

  const ClassNodeKind := "classNode"
  const StartEndKind := "start-end"
  const DefaultStartLabel := "0..*"
  const DefaultEndLabel := "1"
  const DefaultRelType := "Association"

  /** The ids of the nodes, in order. */
  function Ids(nodes: seq<Node>): (r: seq<string>)
    ensures |r| == |nodes|
    ensures forall k :: 0 <= k < |nodes| ==> r[k] == nodes[k].id
  {
    seq(|nodes|, k requires 0 <= k < |nodes| => nodes[k].id)
  }

  predicate DistinctIds(nodes: seq<Node>)
  {
    forall i, j :: 0 <= i < j < |nodes| ==> nodes[i].id != nodes[j].id
  }
}

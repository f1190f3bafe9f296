/** The editor's operations on the diagram: connecting two classes, adding a
    class, dropping a dragged class, saving an edited class or relationship,
    and deleting classes. */
module Editor {
  import opened JsValues
  import opened Decimal
  import opened Diagram
  import Xml
  import XmiImport
  import opened XmiBoilerplate
  import opened XmiTemplates
  import opened XmiExport

  // ---------------------------------------------------------------- connect

  /** What the canvas hands over when the user draws a connection: both
      endpoints and handles, and optionally labels and a relationship type. */
  datatype Connection = Connection(
    source: Opt<string>,
    target: Opt<string>,
    sourceHandle: Opt<string>,
    targetHandle: Opt<string>,
    startLabel: Opt<string>,
    endLabel: Opt<string>,
    relType: Opt<string>)

  /** The guard: both endpoints present and not empty. */
  predicate Connectable(c: Connection)
  {
    Truthy(c.source) && Truthy(c.target)
  }

  /** The edge built from an accepted connection; `id` is the one the canvas
      library gives the edge when it appends it. */
  function ConnectionEdge(c: Connection, id: string): (e: Edge)
    requires Connectable(c)
    ensures e.id == id && e.source == c.source.value && e.target == c.target.value
    ensures e.sourceHandle == c.sourceHandle && e.targetHandle == c.targetHandle
    ensures e.kind == StartEndKind
    ensures e.data.startLabel == (if Truthy(c.startLabel) then c.startLabel.value else DefaultStartLabel)
    ensures e.data.endLabel == (if Truthy(c.endLabel) then c.endLabel.value else DefaultEndLabel)
    ensures e.data.relType == (if Truthy(c.relType) then c.relType.value else DefaultRelType)
  {
    var data := EdgeData(
      OrDefault(c.startLabel, DefaultStartLabel),
      OrDefault(c.endLabel, DefaultEndLabel),
      OrDefault(c.relType, DefaultRelType));
    Edge(id, c.source.value, c.target.value, c.sourceHandle, c.targetHandle, StartEndKind, data)
  }

  /** A rejected connection leaves the edges as they are; an accepted one
      appends exactly one edge and keeps the others in place. */
  function OnConnect(edges: seq<Edge>, c: Connection, id: string): (r: seq<Edge>)
    ensures !Connectable(c) ==> r == edges
    ensures Connectable(c) ==> |r| == |edges| + 1 && r[..|edges|] == edges && r[|edges|] == ConnectionEdge(c, id)
  {
    if !Connectable(c) then edges else edges + [ConnectionEdge(c, id)]
  }

  /** A connected edge never has an empty label or type, so the exporter
      always writes a multiplicity at both ends; with no type given it is a
      plain association, exported with aggregation "none" at the target. */
  lemma ConnectedEdgeExports(c: Connection, id: string)
    requires Connectable(c)
    ensures ConnectionEdge(c, id).data.startLabel != "" && ConnectionEdge(c, id).data.endLabel != ""
    ensures ConnectionEdge(c, id).data.relType != ""
    ensures !Truthy(c.relType) ==> TargetAggregation(ConnectionEdge(c, id).data.relType) == "none"
  {
  }

  /** The connection an imported edge would make on the canvas. */
  function AsConnection(e: Edge): Connection
  {
    Connection(Some(e.source), Some(e.target), e.sourceHandle, e.targetHandle,
               Some(e.data.startLabel), Some(e.data.endLabel), Some(e.data.relType))
  }

  /** Every edge the importer creates would pass the connection guard, and
      reconnecting it gives back the same edge. */
  lemma ImportedEdgesConnectable(doc: Xml.Document)
    ensures forall e :: e in XmiImport.DecodeEdges(doc) ==>
      Connectable(AsConnection(e)) && ConnectionEdge(AsConnection(e), e.id) == e
  {
    forall e | e in XmiImport.DecodeEdges(doc)
      ensures Connectable(AsConnection(e)) && ConnectionEdge(AsConnection(e), e.id) == e
    {
      var a :| a in Xml.DocumentElementsByTag(doc, "UML:AssociationEnd") && XmiImport.DecodeEdge(a) == Some(e);
      OrDefaultStable(Xml.FirstTextByTag(a, "UML:StartLabel"), DefaultStartLabel);
      OrDefaultStable(Xml.FirstTextByTag(a, "UML:EndLabel"), DefaultEndLabel);
      OrDefaultStable(Xml.GetAttribute(a, "type"), DefaultRelType);
    }
  }

  // --------------------------------------------------------------- add node

  /** The class `addNode` creates as the counter's n-th. */
  function NewNode(n: nat, pos: Position): (r: Node)
    ensures r.id == NatToString(n) && IsDigits(r.id) && ParseNat(r.id) == n
    ensures r.kind == ClassNodeKind && r.position == pos
    ensures r.data.className == Some("Clase " + r.id)
    ensures r.data.attributes == ["+ nuevoAtributo: string"]
    ensures r.data.methods == ["+ nuevoMetodo(): void"]
  {
    ParseNatToString(n);
    var id := NatToString(n);
    Node(id, ClassNodeKind, pos, NodeData(Some("Clase " + id), ["+ nuevoAtributo: string"], ["+ nuevoMetodo(): void"]))
  }

  /** The module-level counter `addNode` increments before it builds a class. */
  class NodeCounter {
    var nodeId: nat

    constructor ()
      ensures nodeId == 0
    {
      nodeId := 0;
    }

    /** Counts one more class and appends it to the stored nodes. */
    method AddNode(current: seq<Node>, pos: Position) returns (updated: seq<Node>, node: Node)
      modifies this
      ensures nodeId == old(nodeId) + 1
      ensures node == NewNode(nodeId, pos)
      ensures updated == current + [node]
    {
      nodeId := nodeId + 1;
      node := NewNode(nodeId, pos);
      updated := current + [node];
    }
  }

  /** The ids the counter has handed out after `c` steps. */
  function NumberedIds(c: nat): set<string>
  {
    set m | 1 <= m <= c :: NatToString(m)
  }

  /** Every node carries an id the counter produced in its first `c` steps. */
  predicate NumberedUpTo(nodes: seq<Node>, c: nat)
  {
    forall k :: 0 <= k < |nodes| ==> nodes[k].id in NumberedIds(c)
  }

  /** While every stored id is one the counter already handed out, the next
      class gets a fresh id: ids stay distinct and numbered. */
  lemma AddNodeFresh(nodes: seq<Node>, c: nat, pos: Position)
    requires DistinctIds(nodes) && NumberedUpTo(nodes, c)
    ensures DistinctIds(nodes + [NewNode(c + 1, pos)])
    ensures NumberedUpTo(nodes + [NewNode(c + 1, pos)], c + 1)
  {
    var all := nodes + [NewNode(c + 1, pos)];
    forall k | 0 <= k < |nodes|
      ensures nodes[k].id != NatToString(c + 1)
    {
      assert nodes[k].id in NumberedIds(c);
      var m :| 1 <= m <= c && nodes[k].id == NatToString(m);
      NatToStringInjective(m, c + 1);
    }
    forall k | 0 <= k < |all|
      ensures all[k].id in NumberedIds(c + 1)
    {
      if k < |nodes| {
        assert nodes[k].id in NumberedIds(c);
        var m :| 1 <= m <= c && nodes[k].id == NatToString(m);
        assert all[k].id == NatToString(m);
      } else {
        assert all[k].id == NatToString(c + 1);
      }
    }
  }

  /** An imported board is numbered "1" to "n", so a counter set to the
      number of classes hands out fresh ids from there. */
  lemma ImportedNumbered(doc: Xml.Document, place: nat -> Position)
    ensures NumberedUpTo(XmiImport.DecodeNodes(doc, place), |XmiImport.DecodeNodes(doc, place)|)
  {
    var nodes := XmiImport.DecodeNodes(doc, place);
    forall k | 0 <= k < |nodes|
      ensures nodes[k].id in NumberedIds(|nodes|)
    {
      assert nodes[k].id == NatToString(k + 1);
    }
  }

  /** The lines a new class starts with are exactly what the importer writes
      for an attribute `nuevoAtributo` and a method `nuevoMetodo` that give no
      type. */
  lemma NewNodeLinesAsImported(n: nat, pos: Position)
    ensures var named := map["name" := "nuevoAtributo"];
            NewNode(n, pos).data.attributes == [XmiImport.FormatAttribute(Xml.Element("UML:Attribute", named, []))]
    ensures var named := map["name" := "nuevoMetodo"];
            NewNode(n, pos).data.methods == [XmiImport.FormatMethod(Xml.Element("UML:Method", named, []))]
  {
    var attr := Xml.Element("UML:Attribute", map["name" := "nuevoAtributo"], []);
    assert "type" != "name" && attr.attrs.Keys == {"name"};
    assert Xml.GetAttribute(attr, "type") == None;
    assert "+ " + "nuevoAtributo" + ": " + "string" == "+ nuevoAtributo: string";
    var meth := Xml.Element("UML:Method", map["name" := "nuevoMetodo"], []);
    assert "returnType" != "name" && meth.attrs.Keys == {"name"};
    assert Xml.GetAttribute(meth, "returnType") == None;
    assert "+ " + "nuevoMetodo" + "(): " + "void" == "+ nuevoMetodo(): void";
  }


  // ------------------------------------------------------------ edit by id

  /** Dropping a dragged class: the node with that id takes the new position. */
  function MoveNode(nodes: seq<Node>, id: string, pos: Position): (r: seq<Node>)
    ensures |r| == |nodes|
    ensures forall k :: 0 <= k < |nodes| ==>
      r[k].id == nodes[k].id && r[k].kind == nodes[k].kind && r[k].data == nodes[k].data
    ensures forall k :: 0 <= k < |nodes| ==>
      r[k].position == (if nodes[k].id == id then pos else nodes[k].position)
  {
    seq(|nodes|, k requires 0 <= k < |nodes| =>
      if nodes[k].id == id then nodes[k].(position := pos) else nodes[k])
  }

  /** Saving an edited class: the node with that id takes the edited data. */
  function UpdateNodeData(nodes: seq<Node>, id: string, data: NodeData): (r: seq<Node>)
    ensures |r| == |nodes|
    ensures forall k :: 0 <= k < |nodes| ==>
      r[k].id == nodes[k].id && r[k].kind == nodes[k].kind && r[k].position == nodes[k].position
    ensures forall k :: 0 <= k < |nodes| ==>
      r[k].data == (if nodes[k].id == id then data else nodes[k].data)
  {
    seq(|nodes|, k requires 0 <= k < |nodes| =>
      if nodes[k].id == id then nodes[k].(data := data) else nodes[k])
  }

  /** Saving an edited relationship: the edge with that id takes the edited
      data. */
  function UpdateEdgeData(edges: seq<Edge>, id: string, data: EdgeData): (r: seq<Edge>)
    ensures |r| == |edges|
    ensures forall k :: 0 <= k < |edges| ==>
      r[k] == (if edges[k].id == id then edges[k].(data := data) else edges[k])
    ensures forall k :: 0 <= k < |edges| ==>
      r[k].id == edges[k].id && r[k].source == edges[k].source && r[k].target == edges[k].target
  {
    seq(|edges|, k requires 0 <= k < |edges| =>
      if edges[k].id == id then edges[k].(data := data) else edges[k])
  }

  /** Moving a class changes nothing in the exported class section, and no
      node's id; editing a class changes nothing among the exported diagram
      elements. */
  lemma MoveKeepsClasses(b: Boilerplate, nodes: seq<Node>, id: string, pos: Position)
    ensures ClassesXml(b, MoveNode(nodes, id, pos)) == ClassesXml(b, nodes)
    ensures Ids(MoveNode(nodes, id, pos)) == Ids(nodes)
  {
    var moved := MoveNode(nodes, id, pos);
    forall k | 0 <= k < |nodes|
      ensures ClassBlock(b, moved[k]) == ClassBlock(b, nodes[k])
    {
      assert ClassHeadPieces(b, moved[k]) == ClassHeadPieces(b, nodes[k]);
    }
    ClassesPointwise(b, moved, nodes);
  }

  lemma EditKeepsElements(b: Boilerplate, nodes: seq<Node>, id: string, data: NodeData)
    ensures DiagramElementsXml(b, UpdateNodeData(nodes, id, data)) == DiagramElementsXml(b, nodes)
    ensures Ids(UpdateNodeData(nodes, id, data)) == Ids(nodes)
  {
    var edited := UpdateNodeData(nodes, id, data);
    forall k | 0 <= k < |nodes|
      ensures GeometryBlock(b, edited[k], k) == GeometryBlock(b, nodes[k], k)
    {
      assert GeometryPieces(b, edited[k], k) == GeometryPieces(b, nodes[k], k);
    }
    ElementsPointwise(b, edited, nodes);
  }

  /** Repeating a save with the same values changes nothing more. */
  lemma EditsIdempotent(nodes: seq<Node>, edges: seq<Edge>, id: string, pos: Position,
                        nodeData: NodeData, edgeData: EdgeData)
    ensures MoveNode(MoveNode(nodes, id, pos), id, pos) == MoveNode(nodes, id, pos)
    ensures UpdateNodeData(UpdateNodeData(nodes, id, nodeData), id, nodeData) == UpdateNodeData(nodes, id, nodeData)
    ensures UpdateEdgeData(UpdateEdgeData(edges, id, edgeData), id, edgeData) == UpdateEdgeData(edges, id, edgeData)
  {
  }

  // ----------------------------------------------------------------- delete

  /** One entry of a change batch from the canvas; `kind` is e.g. "remove",
      "position" or "select". */
  datatype NodeChange = NodeChange(kind: string, id: string)

  const RemoveKind := "remove"

  predicate HasRemoval(changes: seq<NodeChange>)
  {
    exists c :: c in changes && c.kind == RemoveKind
  }

  /** The ids of the removal entries, in order. */
  function RemovedIds(changes: seq<NodeChange>): (r: seq<string>)
    ensures forall x :: x in r <==> exists c :: c in changes && c.kind == RemoveKind && c.id == x
    ensures |r| <= |changes|
    ensures r == [] <==> !HasRemoval(changes)
  {
    if |changes| == 0 then []
    else
      var rest := RemovedIds(changes[1..]);
      assert forall c :: c in changes <==> c == changes[0] || c in changes[1..];
      if changes[0].kind == RemoveKind then [changes[0].id] + rest else rest
  }

  /** The stored nodes whose id was not removed, in their order. */
  function KeepNodes(current: seq<Node>, ids: seq<string>): (r: seq<Node>)
    ensures |r| <= |current|
    ensures forall n :: n in r <==> n in current && n.id !in ids
  {
    if |current| == 0 then []
    else
      var rest := KeepNodes(current[1..], ids);
      assert forall n :: n in current <==> n == current[0] || n in current[1..];
      if current[0].id in ids then rest else [current[0]] + rest
  }

  /** What a change batch writes back: the stored nodes without the removed
      ones, or the stored nodes unchanged when nothing was removed. */
  function DeleteRemoved(current: seq<Node>, changes: seq<NodeChange>): seq<Node>
  {
    if HasRemoval(changes) then KeepNodes(current, RemovedIds(changes)) else current
  }

  lemma {:induction false} KeepNodesAppend(a: seq<Node>, b: seq<Node>, ids: seq<string>)
    ensures KeepNodes(a + b, ids) == KeepNodes(a, ids) + KeepNodes(b, ids)
    decreases |a|
  {
    if |a| == 0 {
      assert a + b == b;
    } else {
      assert (a + b)[1..] == a[1..] + b;
      KeepNodesAppend(a[1..], b, ids);
    }
  }

  lemma {:induction false} KeepNodesIdempotent(current: seq<Node>, ids: seq<string>)
    ensures KeepNodes(KeepNodes(current, ids), ids) == KeepNodes(current, ids)
    decreases |current|
  {
    if |current| > 0 {
      KeepNodesIdempotent(current[1..], ids);
      if current[0].id !in ids {
        assert ([current[0]] + KeepNodes(current[1..], ids))[1..] == KeepNodes(current[1..], ids);
      }
    }
  }

  /** Deleting keeps the ids distinct when they were distinct. */
  lemma {:induction false} KeepNodesDistinct(current: seq<Node>, ids: seq<string>)
    requires DistinctIds(current)
    ensures DistinctIds(KeepNodes(current, ids))
    decreases |current|
  {
    if |current| > 0 {
      assert DistinctIds(current[1..]) by {
        forall i, j | 0 <= i < j < |current[1..]|
          ensures current[1..][i].id != current[1..][j].id
        {
          assert current[1..][i] == current[i + 1] && current[1..][j] == current[j + 1];
        }
      }
      KeepNodesDistinct(current[1..], ids);
      var rest := KeepNodes(current[1..], ids);
      if current[0].id !in ids {
        forall j | 0 <= j < |rest|
          ensures rest[j].id != current[0].id
        {
          assert rest[j] in current[1..];
          var m :| 0 <= m < |current[1..]| && current[1..][m] == rest[j];
          assert current[m + 1] == rest[j];
        }
        var r := [current[0]] + rest;
        forall i, j | 0 <= i < j < |r|
          ensures r[i].id != r[j].id
        {
          if i == 0 {
            assert r[j] == rest[j - 1];
          } else {
            assert r[i] == rest[i - 1] && r[j] == rest[j - 1];
          }
        }
      }
    }
  }

  /** A batch without removals writes back nothing different: the guard only
      saves work. */
  lemma GuardOnlySavesWork(current: seq<Node>, changes: seq<NodeChange>)
    ensures DeleteRemoved(current, changes) == KeepNodes(current, RemovedIds(changes))
  {
    if !HasRemoval(changes) {
      KeepNothing(current);
    }
  }

  lemma {:induction false} KeepNothing(current: seq<Node>)
    ensures KeepNodes(current, []) == current
    decreases |current|
  {
    if |current| > 0 {
      KeepNothing(current[1..]);
    }
  }
}

/** The XMI exporter: the whole document for a graph, built the way the
    editor builds it, one accumulated string per section. */
module XmiExport {
  import opened Text
  import opened Diagram
  import opened XmiBoilerplate
  import opened XmiTemplates

  /** The class elements of the nodes, in node order. */
  function ClassBlocks(b: Boilerplate, nodes: seq<Node>): (r: seq<string>)
    ensures |r| == |nodes|
  {
    if |nodes| == 0 then []
    else ClassBlocks(b, nodes[..|nodes| - 1]) + [ClassBlock(b, nodes[|nodes| - 1])]
  }

  /** The association elements of the edges, numbered by position. */
  function AssociationBlocks(b: Boilerplate, edges: seq<Edge>): (r: seq<string>)
    ensures |r| == |edges|
  {
    if |edges| == 0 then []
    else AssociationBlocks(b, edges[..|edges| - 1]) + [AssociationBlock(b, edges[|edges| - 1], |edges| - 1)]
  }

  /** The diagram elements of the nodes, numbered by position. */
  function GeometryBlocks(b: Boilerplate, nodes: seq<Node>): (r: seq<string>)
    ensures |r| == |nodes|
  {
    if |nodes| == 0 then []
    else GeometryBlocks(b, nodes[..|nodes| - 1]) + [GeometryBlock(b, nodes[|nodes| - 1], |nodes| - 1)]
  }

  lemma {:induction false} ClassBlocksAt(b: Boilerplate, nodes: seq<Node>, k: nat)
    requires k < |nodes|
    ensures ClassBlocks(b, nodes)[k] == ClassBlock(b, nodes[k])
    decreases |nodes|
  {
    if k < |nodes| - 1 {
      ClassBlocksAt(b, nodes[..|nodes| - 1], k);
    }
  }

  lemma {:induction false} AssociationBlocksAt(b: Boilerplate, edges: seq<Edge>, j: nat)
    requires j < |edges|
    ensures AssociationBlocks(b, edges)[j] == AssociationBlock(b, edges[j], j)
    decreases |edges|
  {
    if j < |edges| - 1 {
      AssociationBlocksAt(b, edges[..|edges| - 1], j);
    }
  }

  lemma {:induction false} GeometryBlocksAt(b: Boilerplate, nodes: seq<Node>, k: nat)
    requires k < |nodes|
    ensures GeometryBlocks(b, nodes)[k] == GeometryBlock(b, nodes[k], k)
    decreases |nodes|
  {
    if k < |nodes| - 1 {
      GeometryBlocksAt(b, nodes[..|nodes| - 1], k);
    }
  }

  /** One class element per node, in node order. */
  function ClassesXml(b: Boilerplate, nodes: seq<Node>): string
  {
    Concat(ClassBlocks(b, nodes))
  }

  /** One association element per edge, in edge order. */
  function AssociationsXml(b: Boilerplate, edges: seq<Edge>): string
  {
    Concat(AssociationBlocks(b, edges))
  }

  /** One diagram element per node, in node order. */
  function DiagramElementsXml(b: Boilerplate, nodes: seq<Node>): string
  {
    Concat(GeometryBlocks(b, nodes))
  }

  /** The exported document: header, classes, associations, the package and
      model footer with the diagram's opening, the diagram elements and the
      closing text. */
  function Document(b: Boilerplate, g: Graph): string
  {
    b.header + ClassesXml(b, g.nodes) + AssociationsXml(b, g.edges) + b.body1
    + b.body2Open + DiagramElementsXml(b, g.nodes) + b.body2Close
  }

  // ------------------------------------------------------------ the exporter

  lemma SectionsJoin(header: string, classes: string, associations: string, body1: string,
                     open: string, elements: string, close: string)
    ensures header + (classes + associations) + body1 + (open + elements + close)
         == header + classes + associations + body1 + open + elements + close
  {
  }

  lemma ClassBlocksSnoc(b: Boilerplate, nodes: seq<Node>, i: nat)
    requires i < |nodes|
    ensures ClassesXml(b, nodes[..i + 1]) == ClassesXml(b, nodes[..i]) + ClassBlock(b, nodes[i])
  {
    assert nodes[..i + 1][..i] == nodes[..i];
    ConcatSnoc(ClassBlocks(b, nodes[..i]), ClassBlock(b, nodes[i]));
  }

  lemma GeometryBlocksSnoc(b: Boilerplate, nodes: seq<Node>, i: nat)
    requires i < |nodes|
    ensures DiagramElementsXml(b, nodes[..i + 1]) == DiagramElementsXml(b, nodes[..i]) + GeometryBlock(b, nodes[i], i)
  {
    assert nodes[..i + 1][..i] == nodes[..i];
    ConcatSnoc(GeometryBlocks(b, nodes[..i]), GeometryBlock(b, nodes[i], i));
  }

  lemma AttributeBlocksSnoc(b: Boilerplate, attrs: seq<string>, id: string, j: nat)
    requires j < |attrs|
    ensures AttributesXml(b, attrs[..j + 1], id) == AttributesXml(b, attrs[..j], id) + AttributeBlock(b, attrs[j], j, id)
  {
    assert AttributeBlocks(b, attrs[..j + 1], id) == AttributeBlocks(b, attrs[..j], id) + [AttributeBlock(b, attrs[j], j, id)];
    ConcatSnoc(AttributeBlocks(b, attrs[..j], id), AttributeBlock(b, attrs[j], j, id));
  }

  lemma AssociationBlocksSnoc(b: Boilerplate, edges: seq<Edge>, i: nat)
    requires i < |edges|
    ensures AssociationsXml(b, edges[..i + 1]) == AssociationsXml(b, edges[..i]) + AssociationBlock(b, edges[i], i)
  {
    assert edges[..i + 1][..i] == edges[..i];
    ConcatSnoc(AssociationBlocks(b, edges[..i]), AssociationBlock(b, edges[i], i));
  }

  /** The association elements, accumulated edge by edge. */
  method Association(b: Boilerplate, edges: seq<Edge>) returns (associations: string)
    ensures associations == AssociationsXml(b, edges)
  {
    associations := "";
    var i := 0;
    while i < |edges|
      invariant 0 <= i <= |edges|
      invariant associations == AssociationsXml(b, edges[..i])
    {
      AssociationBlocksSnoc(b, edges, i);
      associations := associations + AssociationBlock(b, edges[i], i);
      i := i + 1;
    }
    assert edges[..i] == edges;
  }

  /** The body of the per-node callback that extends the class accumulator:
      the class's opening, one attribute element per attribute, its closing. */
  method AppendClass(b: Boilerplate, classes: string, node: Node) returns (extended: string)
    ensures extended == classes + ClassBlock(b, node)
  {
    var attrs := node.data.attributes;
    extended := classes + ClassHead(b, node);
    var j := 0;
    while j < |attrs|
      invariant 0 <= j <= |attrs|
      invariant extended == classes + ClassHead(b, node) + AttributesXml(b, attrs[..j], node.id)
    {
      AttributeBlocksSnoc(b, attrs, node.id, j);
      extended := extended + AttributeBlock(b, attrs[j], j, node.id);
      j := j + 1;
    }
    assert attrs[..j] == attrs;
    extended := extended + b.classClose;
  }

  /** The text `saveXMLFile` builds, for any fixed text of the dialect. */
  method BuildXml(b: Boilerplate, g: Graph) returns (xml: string)
    ensures xml == Document(b, g)
  {
    var classes := "";
    var element := "";
    var i := 0;
    while i < |g.nodes|
      invariant 0 <= i <= |g.nodes|
      invariant classes == ClassesXml(b, g.nodes[..i])
      invariant element == DiagramElementsXml(b, g.nodes[..i])
    {
      ClassBlocksSnoc(b, g.nodes, i);
      GeometryBlocksSnoc(b, g.nodes, i);
      classes := AppendClass(b, classes, g.nodes[i]);
      element := element + GeometryBlock(b, g.nodes[i], i);
      i := i + 1;
    }
    assert g.nodes[..i] == g.nodes;
    ghost var classesXml := classes;
    var associations := Association(b, g.edges);
    classes := classes + associations;
    var body2 := b.body2Open + element + b.body2Close;
    xml := b.header + classes + b.body1 + body2;
    SectionsJoin(b.header, classesXml, associations, b.body1, b.body2Open, element, b.body2Close);
  }

  /** The text written to the chosen file. */
  method SaveXmlFile(g: Graph) returns (xml: string)
    ensures xml == Document(EnterpriseArchitect, g)
  {
    xml := BuildXml(EnterpriseArchitect, g);
  }

  // ------------------------------------------------ where each block lands

  /** Where the association section starts. */
  function AssociationsStart(b: Boilerplate, g: Graph): nat
  {
    |b.header| + |ClassesXml(b, g.nodes)|
  }

  /** Where the diagram elements start. */
  function ElementsStart(b: Boilerplate, g: Graph): nat
  {
    AssociationsStart(b, g) + |AssociationsXml(b, g.edges)| + |b.body1| + |b.body2Open|
  }

  /** Node `k`'s class element sits in the class section, after the elements
      of nodes 0 to k-1 and before every association. */
  lemma ClassPlacement(b: Boilerplate, g: Graph, k: nat)
    requires k < |g.nodes|
    ensures OccursAt(ClassBlock(b, g.nodes[k]), Document(b, g),
                     |b.header| + |Concat(ClassBlocks(b, g.nodes)[..k])|)
    ensures |b.header| + |Concat(ClassBlocks(b, g.nodes)[..k])| + |ClassBlock(b, g.nodes[k])|
            <= AssociationsStart(b, g)
  {
    ClassBlocksAt(b, g.nodes, k);
    PieceInSecond(ClassBlocks(b, g.nodes), k, ClassBlock(b, g.nodes[k]), b.header,
                  AssociationsXml(b, g.edges), b.body1, b.body2Open, DiagramElementsXml(b, g.nodes),
                  b.body2Close, Document(b, g), |b.header| + |Concat(ClassBlocks(b, g.nodes)[..k])|);
  }


  /** Edge `j`'s association element sits in the association section, after
      the elements of edges 0 to j-1 and before every diagram element. */
  lemma AssociationPlacement(b: Boilerplate, g: Graph, j: nat)
    requires j < |g.edges|
    ensures OccursAt(AssociationBlock(b, g.edges[j], j), Document(b, g),
                     AssociationsStart(b, g) + |Concat(AssociationBlocks(b, g.edges)[..j])|)
    ensures AssociationsStart(b, g) + |Concat(AssociationBlocks(b, g.edges)[..j])|
            + |AssociationBlock(b, g.edges[j], j)| <= ElementsStart(b, g)
  {
    AssociationBlocksAt(b, g.edges, j);
    PieceInThird(AssociationBlocks(b, g.edges), j, AssociationBlock(b, g.edges[j], j), b.header,
                 ClassesXml(b, g.nodes), b.body1, b.body2Open, DiagramElementsXml(b, g.nodes),
                 b.body2Close, Document(b, g),
                 AssociationsStart(b, g) + |Concat(AssociationBlocks(b, g.edges)[..j])|);
  }


  /** Every class element ends before any association element starts, and
      every association element ends before the diagram elements start. */
  lemma SectionOrder(b: Boilerplate, g: Graph, k: nat, j: nat)
    requires k < |g.nodes| && j < |g.edges|
    ensures |b.header| + |Concat(ClassBlocks(b, g.nodes)[..k])| + |ClassBlock(b, g.nodes[k])|
            <= AssociationsStart(b, g) + |Concat(AssociationBlocks(b, g.edges)[..j])|
    ensures AssociationsStart(b, g) + |Concat(AssociationBlocks(b, g.edges)[..j])|
            + |AssociationBlock(b, g.edges[j], j)| <= ElementsStart(b, g)
  {
    ClassPlacement(b, g, k);
    AssociationPlacement(b, g, j);
  }

  /** Node `k`'s diagram element sits among the diagram elements, after
      those of nodes 0 to k-1. */
  lemma GeometryPlacement(b: Boilerplate, g: Graph, k: nat)
    requires k < |g.nodes|
    ensures OccursAt(GeometryBlock(b, g.nodes[k], k), Document(b, g),
                     ElementsStart(b, g) + |Concat(GeometryBlocks(b, g.nodes)[..k])|)
  {
    GeometryBlocksAt(b, g.nodes, k);
    PieceInSixth(GeometryBlocks(b, g.nodes), k, GeometryBlock(b, g.nodes[k], k), b.header,
                 ClassesXml(b, g.nodes), AssociationsXml(b, g.edges), b.body1, b.body2Open,
                 b.body2Close, Document(b, g),
                 ElementsStart(b, g) + |Concat(GeometryBlocks(b, g.nodes)[..k])|);
  }


  /** Attribute line `a` of node `k` is written, with its classifier idref,
      inside that node's class element. */
  lemma AttributePlacement(b: Boilerplate, g: Graph, k: nat, a: nat)
    requires k < |g.nodes| && a < |g.nodes[k].data.attributes|
    ensures Occurs(AttributeBlock(b, g.nodes[k].data.attributes[a], a, g.nodes[k].id), Document(b, g))
    ensures Occurs(ClassifierIdref(a, g.nodes[k].id), Document(b, g))
  {
    var n := g.nodes[k];
    var blk := AttributeBlock(b, n.data.attributes[a], a, n.id);
    assert Occurs(blk, ClassBlock(b, n)) by {
      AttributeInClass(b, n, a);
    }
    assert Occurs(ClassBlock(b, n), Document(b, g)) by {
      ClassPlacement(b, g, k);
    }
    OccursIn(blk, ClassBlock(b, n), Document(b, g));
    AttributeCarriesIds(b, n.data.attributes[a], a, n.id);
    OccursIn(ClassifierIdref(a, n.id), blk, Document(b, g));
  }

  /** A node's export id is declared by its class element. */
  lemma ClassDeclared(b: Boilerplate, g: Graph, k: nat)
    requires k < |g.nodes|
    ensures Occurs(ClassDecl(g.nodes[k].id), Document(b, g))
  {
    var n := g.nodes[k];
    ClassDeclaresId(b, n);
    assert Occurs(ClassBlock(b, n), Document(b, g)) by {
      ClassPlacement(b, g, k);
    }
    OccursIn(ClassDecl(n.id), ClassBlock(b, n), Document(b, g));
  }

  /** Edge `j`'s association element names its source's and its target's
      export ids in its two ends. */
  lemma EndsNamed(b: Boilerplate, g: Graph, j: nat)
    requires j < |g.edges|
    ensures Occurs(EndRef(g.edges[j].source), AssociationBlock(b, g.edges[j], j))
    ensures Occurs(EndRef(g.edges[j].target), AssociationBlock(b, g.edges[j], j))
  {
    var e := g.edges[j];
    var ends := SourceEnd(b, e) + TargetEnd(b, e);
    AssociationEndsFields(b, e);
    AssociationHoldsEnds(b, e, j);
    assert OccursAt(SourceEnd(b, e), ends, 0);
    assert OccursAt(TargetEnd(b, e), ends, |SourceEnd(b, e)|);
    OccursIn(EndRef(e.source), SourceEnd(b, e), ends);
    OccursIn(EndRef(e.target), TargetEnd(b, e), ends);
    OccursIn(EndRef(e.source), ends, AssociationBlock(b, e, j));
    OccursIn(EndRef(e.target), ends, AssociationBlock(b, e, j));
  }

  /** A node's diagram element names the node's export id as its subject. */
  lemma SubjectNamed(b: Boilerplate, g: Graph, k: nat)
    requires k < |g.nodes|
    ensures Occurs(Subject(g.nodes[k].id), Document(b, g))
  {
    var n := g.nodes[k];
    GeometryFields(b, n, k);
    assert Occurs(GeometryBlock(b, n, k), Document(b, g)) by {
      GeometryPlacement(b, g, k);
    }
    OccursIn(Subject(n.id), GeometryBlock(b, n, k), Document(b, g));
  }

  /** The export id of a node is written three times: declared by its class
      element, named by an end of edge j's association element (which sits at
      its place in the association section), and named as the subject of the
      node's diagram element. */
  lemma EndpointNamesClass(b: Boilerplate, g: Graph, j: nat, k: nat)
    requires j < |g.edges| && k < |g.nodes|
    requires g.nodes[k].id == g.edges[j].source || g.nodes[k].id == g.edges[j].target
    ensures Occurs(ClassDecl(g.nodes[k].id), ClassBlock(b, g.nodes[k]))
    ensures Occurs(EndRef(g.nodes[k].id), AssociationBlock(b, g.edges[j], j))
    ensures OccursAt(AssociationBlock(b, g.edges[j], j), Document(b, g),
                     AssociationsStart(b, g) + |Concat(AssociationBlocks(b, g.edges)[..j])|)
    ensures Occurs(Subject(g.nodes[k].id), GeometryBlock(b, g.nodes[k], k))
    ensures Occurs(ClassDecl(g.nodes[k].id), Document(b, g))
    ensures Occurs(EndRef(g.nodes[k].id), Document(b, g))
    ensures Occurs(Subject(g.nodes[k].id), Document(b, g))
  {
    var id := g.nodes[k].id;
    ClassDeclaresId(b, g.nodes[k]);
    GeometryFields(b, g.nodes[k], k);
    AssociationPlacement(b, g, j);
    ClassDeclared(b, g, k);
    assert Occurs(EndRef(id), AssociationBlock(b, g.edges[j], j)) by {
      EndsNamed(b, g, j);
    }
    assert Occurs(AssociationBlock(b, g.edges[j], j), Document(b, g)) by {
      AssociationPlacement(b, g, j);
    }
    OccursIn(EndRef(id), AssociationBlock(b, g.edges[j], j), Document(b, g));
    SubjectNamed(b, g, k);
  }

  /** Nodes with distinct ids are declared under distinct export ids. */
  lemma ExportIdsDistinct(g: Graph)
    requires DistinctIds(g.nodes)
    ensures forall k, l :: 0 <= k < l < |g.nodes| ==> ClassRef(g.nodes[k].id) != ClassRef(g.nodes[l].id)
  {
    forall k, l | 0 <= k < l < |g.nodes|
      ensures ClassRef(g.nodes[k].id) != ClassRef(g.nodes[l].id)
    {
      ClassRefInjective(g.nodes[k].id, g.nodes[l].id);
    }
  }

  // ------------------------------------------- sections that ignore a field

  /** Class sections agree when the nodes agree on every class element. */
  lemma {:induction false} ClassesPointwise(b: Boilerplate, xs: seq<Node>, ys: seq<Node>)
    requires |xs| == |ys|
    requires forall k :: 0 <= k < |xs| ==> ClassBlock(b, xs[k]) == ClassBlock(b, ys[k])
    ensures ClassBlocks(b, xs) == ClassBlocks(b, ys)
    ensures ClassesXml(b, xs) == ClassesXml(b, ys)
    decreases |xs|
  {
    if |xs| > 0 {
      ClassesPointwise(b, xs[..|xs| - 1], ys[..|ys| - 1]);
    }
  }

  /** Diagram-element sections agree when the nodes agree on every diagram
      element. */
  lemma {:induction false} ElementsPointwise(b: Boilerplate, xs: seq<Node>, ys: seq<Node>)
    requires |xs| == |ys|
    requires forall k :: 0 <= k < |xs| ==> GeometryBlock(b, xs[k], k) == GeometryBlock(b, ys[k], k)
    ensures GeometryBlocks(b, xs) == GeometryBlocks(b, ys)
    ensures DiagramElementsXml(b, xs) == DiagramElementsXml(b, ys)
    decreases |xs|
  {
    if |xs| > 0 {
      ElementsPointwise(b, xs[..|xs| - 1], ys[..|ys| - 1]);
    }
  }
}
